/** The plant selection screen's controller: the seven state cells the
    component keeps and the handlers that update them. Network results
    are parameters of the methods that apply them. */
module PlantSelect {
  import opened Wrappers
  import opened PlantCatalog

  class PlantSelectScreen {
    /** The environment filter buttons. */
    var environments: seq<Environment>
    /** Every plant fetched so far. */
    var plants: seq<Plant>
    /** The plants currently shown. */
    var filteredPlants: seq<Plant>
    /** The key of the selected environment. */
    var environmentSelected: string
    /** Set at mount and whenever a plants request returns no body;
        cleared when a page arrives. */
    var loading: bool
    /** The page counter. */
    var page: int
    /** True while a further page is being fetched. */
    var loadingMore: bool

    /** The page counter never falls below its initial value, and the
        shown plants are always some of the fetched plants, in order. */
    ghost predicate Valid()
      reads this
    {
      page >= 1 && IsSubsequence(filteredPlants, plants)
    }

    /** The initial value of every state cell. */
    constructor ()
      ensures Valid()
      ensures environments == [] && plants == [] && filteredPlants == []
      ensures environmentSelected == AllKey
      ensures loading && page == 1 && !loadingMore
    {
      environments := [];
      plants := [];
      filteredPlants := [];
      environmentSelected := AllKey;
      loading := true;
      page := 1;
      loadingMore := false;
      SubsequenceReflexive<Plant>([]);
    }

    /** Tapping an environment button: records the selection and shows
        the fetched plants that match it; no request is made. */
    method SelectEnvironment(key: string)
      requires Valid()
      modifies this
      ensures Valid()
      ensures environmentSelected == key
      ensures filteredPlants == Visible(plants, key)
      ensures key == AllKey ==> filteredPlants == plants
      ensures plants == old(plants) && environments == old(environments)
      ensures page == old(page) && loading == old(loading) && loadingMore == old(loadingMore)
    {
      environmentSelected := key;
      if key == AllKey {
        filteredPlants := plants;
        SubsequenceReflexive(plants);
        return;
      }
      var filtered := FilterByEnvironment(plants, key);
      FilterIsSubsequence(plants, key);
      filteredPlants := filtered;
    }

    /** The list reports how far its end is. Below one unit nothing
        happens and no request is made; otherwise a further page is marked
        as loading, the page counter moves on by one and a plants request
        is issued. The request carries the page value the handler saw,
        the one before the increment: `fetchPlants` reads the counter as
        it was when the screen last rendered. */
    method FetchMore(distance: real) returns (request: Option<int>)
      requires Valid()
      modifies this
      ensures Valid()
      ensures request.Some? <==> distance >= 1.0
      ensures request.Some? ==> request.value == old(page)
      ensures request.None? ==> loadingMore == old(loadingMore) && page == old(page)
      ensures request.Some? ==> loadingMore && page == old(page) + 1
      ensures page >= old(page)
      ensures plants == old(plants) && filteredPlants == old(filteredPlants)
      ensures environments == old(environments)
      ensures environmentSelected == old(environmentSelected) && loading == old(loading)
    {
      if distance < 1.0 {
        return None;
      }
      request := Some(page);
      loadingMore := true;
      page := page + 1;
    }

    /** A plants request for page `requestedPage` settles. A throw changes
        nothing; an absent body marks the screen as loading; a page is
        appended to both lists after the first page and replaces them
        otherwise, and both loading flags are cleared. */
    method ApplyPlantsResponse(requestedPage: int, response: Response<seq<Plant>>)
      requires Valid()
      modifies this
      ensures Valid()
      ensures response.Threw? ==>
        plants == old(plants) && filteredPlants == old(filteredPlants)
        && loading == old(loading) && loadingMore == old(loadingMore)
      ensures response == Returned(None) ==>
        plants == old(plants) && filteredPlants == old(filteredPlants)
        && loading && loadingMore == old(loadingMore)
      ensures response.Returned? && response.body.Some? ==>
        plants == MergePage(old(plants), requestedPage, response.body.value)
        && filteredPlants == MergePage(old(filteredPlants), requestedPage, response.body.value)
        && !loading && !loadingMore
      ensures page == old(page) && environments == old(environments)
      ensures environmentSelected == old(environmentSelected)
    {
      match response
      case Threw =>
      case Returned(None) =>
        loading := true;
      case Returned(Some(data)) =>
        if requestedPage > 1 {
          SubsequenceAppend(filteredPlants, plants, data);
          plants := plants + data;
          filteredPlants := filteredPlants + data;
        } else {
          plants := data;
          filteredPlants := data;
          SubsequenceReflexive(data);
        }
        loading := false;
        loadingMore := false;
    }

    /** The environments request settles. A returned list becomes the
        buttons behind the synthetic catch-all entry. A throw, or an
        absent body (spreading it throws inside the same `try`), leaves
        the buttons as they were. */
    method ApplyEnvironmentsResponse(response: Response<seq<Environment>>)
      requires Valid()
      modifies this
      ensures Valid()
      ensures response.Returned? && response.body.Some? ==>
        environments == WithAllEntry(response.body.value)
      ensures !(response.Returned? && response.body.Some?) ==>
        environments == old(environments)
      ensures plants == old(plants) && filteredPlants == old(filteredPlants)
      ensures environmentSelected == old(environmentSelected)
      ensures page == old(page) && loading == old(loading) && loadingMore == old(loadingMore)
    {
      match response
      case Returned(Some(data)) =>
        environments := WithAllEntry(data);
      case _ =>
    }
  }

  // -----------------------------------------------------------------------
  // A walk through the screen
  // -----------------------------------------------------------------------

  function Indoor(): Plant
  {
    Plant("1", "Aningapara", "", "", "", ["indoor"], Frequency(2.0, "week"))
  }

  function Outdoor(): Plant
  {
    Plant("2", "Zamioculca", "", "", "", ["outdoor"], Frequency(1.0, "week"))
  }

  function Both(): Plant
  {
    Plant("3", "Peperomia", "", "", "", ["indoor", "outdoor"], Frequency(3.0, "week"))
  }

  /** Mount, receive the environments and the first page, select
      "indoor", then "all": the shown plants are 1 and 3 in their order,
      then all three again. */
  method IndoorThenAll() returns (buttons: seq<Environment>, indoor: seq<Plant>, all: seq<Plant>)
    ensures |buttons| == 3 && buttons[0] == AllEnvironment
    ensures buttons[1..] == [Environment("indoor", "Indoor"), Environment("outdoor", "Outdoor")]
    ensures indoor == [Indoor(), Both()]
    ensures all == [Indoor(), Outdoor(), Both()]
  {
    var screen := new PlantSelectScreen();
    screen.ApplyEnvironmentsResponse(
      Returned(Some([Environment("indoor", "Indoor"), Environment("outdoor", "Outdoor")])));
    screen.ApplyPlantsResponse(1, Returned(Some([Indoor(), Outdoor(), Both()])));
    buttons := screen.environments;
    screen.SelectEnvironment("indoor");
    indoor := screen.filteredPlants;
    screen.SelectEnvironment(AllKey);
    all := screen.filteredPlants;
  }

  /** With "indoor" selected, the first load-more re-requests page 1
      (the counter value before the increment), and its response replaces
      the shown list with the whole, unfiltered page. */
  method StaleFirstLoadMore() returns (requested: int, shown: seq<Plant>, matching: seq<Plant>)
    ensures requested == 1
    ensures shown == [Indoor(), Outdoor()]
    ensures matching == [Indoor()]
  {
    var screen := new PlantSelectScreen();
    screen.ApplyPlantsResponse(1, Returned(Some([Indoor(), Outdoor()])));
    screen.SelectEnvironment("indoor");
    var request := screen.FetchMore(20.0);
    requested := request.value;
    screen.ApplyPlantsResponse(requested, Returned(Some([Indoor(), Outdoor()])));
    shown := screen.filteredPlants;
    assert [Indoor(), Outdoor()][1..] == [Outdoor()];
    matching := Visible(screen.plants, screen.environmentSelected);
  }

  /** With "indoor" selected, two load-mores: the first re-requests page 1
      and gets the indoor plant again; the second requests page 2, whose
      outdoor plant is appended to the shown list unfiltered, so the shown
      list no longer equals the filter of the full list. */
  method SecondPageUnfiltered() returns (shown: seq<Plant>, matching: seq<Plant>)
    ensures shown == [Indoor(), Outdoor()]
    ensures matching == [Indoor()]
  {
    var screen := new PlantSelectScreen();
    screen.ApplyPlantsResponse(1, Returned(Some([Indoor()])));
    screen.SelectEnvironment("indoor");
    var first := screen.FetchMore(20.0);
    screen.ApplyPlantsResponse(first.value, Returned(Some([Indoor()])));
    var second := screen.FetchMore(20.0);
    assert second.value == 2;
    screen.ApplyPlantsResponse(second.value, Returned(Some([Outdoor()])));
    shown := screen.filteredPlants;
    assert screen.plants == [Indoor(), Outdoor()];
    assert [Indoor(), Outdoor()][1..] == [Outdoor()];
    matching := Visible(screen.plants, screen.environmentSelected);
  }
}
