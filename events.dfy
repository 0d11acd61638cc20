/**
 * The older revision of the view events: intents sent from the view to the
 * controller. Each concrete event holds its `ViewEvent` base part as a
 * constant field, so its type tag is fixed when the event is built.
 */
module Events {

  import opened FilterTypes
  import opened ViewEventTypes

  /** The tag is a constant: no operation can change it once the event is built. */
  class ViewEvent {
    const viewEventType: ViewEventType

    /** An untyped event. */
    constructor ()
      ensures viewEventType == ViewEventType.None
    {
      viewEventType := ViewEventType.None;
    }

    /** The constructor the concrete events use to fix their tag. */
    constructor OfType(eventType: ViewEventType)
      ensures viewEventType == eventType
    {
      viewEventType := eventType;
    }

    function GetViewEventType(): (t: ViewEventType)
      ensures t == viewEventType
    {
      viewEventType
    }
  }

  /** Asks the controller to turn one filter on or off. */
  class ViewEvent_ChangeActiveFilters {
    const base: ViewEvent
    var filterType: FilterType
    var isActive: bool

    constructor ()
      ensures fresh(base) && base.GetViewEventType() == ChangeActiveFilters
      ensures GetFilterType() == FilterType.None && !GetIsActive()
    {
      base := new ViewEvent.OfType(ChangeActiveFilters);
      filterType := FilterType.None;
      isActive := false;
    }

    method SetActiveFilterType(filterType: FilterType, isActive: bool)
      modifies this
      ensures GetFilterType() == filterType && GetIsActive() == isActive
    {
      this.filterType := filterType;
      this.isActive := isActive;
    }

    function GetFilterType(): (f: FilterType)
      reads this
      ensures f == filterType
    {
      filterType
    }

    function GetIsActive(): (a: bool)
      reads this
      ensures a == isActive
    {
      isActive
    }
  }

  /** Asks the controller to add a filter to, or drop it from, the combined view. */
  class ViewEvent_ChangeActiveFiltersOnCombinedFilter {
    const base: ViewEvent
    var filterType: FilterType
    var isActive: bool

    constructor ()
      ensures fresh(base) && base.GetViewEventType() == ChangeActiveFiltersOnCombinedFilter
      ensures GetFilterType() == FilterType.None && !GetIsActive()
    {
      base := new ViewEvent.OfType(ChangeActiveFiltersOnCombinedFilter);
      filterType := FilterType.None;
      isActive := false;
    }

    method SetActiveFilterTypeOnCombined(filterType: FilterType, isActive: bool)
      modifies this
      ensures GetFilterType() == filterType && GetIsActive() == isActive
    {
      this.filterType := filterType;
      this.isActive := isActive;
    }

    function GetFilterType(): (f: FilterType)
      reads this
      ensures f == filterType
    {
      filterType
    }

    function GetIsActive(): (a: bool)
      reads this
      ensures a == isActive
    {
      isActive
    }
  }

  /** Asks the controller to switch the combined view on or off. */
  class ViewEvent_ActivateCombinedFilter {
    const base: ViewEvent
    var activateCombinedFilter: bool

    constructor ()
      ensures fresh(base) && base.GetViewEventType() == ActivateCombinedFilter
      ensures !GetActivateCombinedFilter()
    {
      base := new ViewEvent.OfType(ActivateCombinedFilter);
      activateCombinedFilter := false;
    }

    method SetActivateCombinedFilter(activateCombinedFilter: bool)
      modifies this
      ensures GetActivateCombinedFilter() == activateCombinedFilter
    {
      this.activateCombinedFilter := activateCombinedFilter;
    }

    function GetActivateCombinedFilter(): (b: bool)
      reads this
      ensures b == activateCombinedFilter
    {
      activateCombinedFilter
    }
  }
}
