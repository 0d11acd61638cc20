/**
 * The newer revision of the view events. The base event has only a typed
 * constructor, and the two filter-change events share their fields and
 * getters through `ViewChangeFilterEvent`.
 */
module ViewEvents {

  import opened FilterTypes
  import VT = ViewEventTypes

  /** The tag is a constant: no operation can change it once the event is built. */
  class ViewEvent {
    const viewEventType: VT.ViewEventType

    constructor (eventType: VT.ViewEventType)
      ensures viewEventType == eventType
    {
      viewEventType := eventType;
    }

    function GetViewEventType(): (t: VT.ViewEventType)
      ensures t == viewEventType
    {
      viewEventType
    }
  }

  /**
   * The shared part of the filter-change events. Its constructor only
   * forwards the tag, so the filter fields start out indeterminate here; the
   * concrete events set them.
   */
  class ViewChangeFilterEvent {
    const base: ViewEvent
    var filterType: FilterType
    var isActive: bool

    constructor (eventType: VT.ViewEventType)
      ensures fresh(base) && base.GetViewEventType() == eventType
    {
      base := new ViewEvent(eventType);
    }

    function GetFilterType(): (f: FilterType)
      reads this
      ensures f == filterType
    {
      filterType
    }

    function GetIsActive(): (a: bool)
      reads this
      ensures a == isActive
    {
      isActive
    }
  }

  /** Asks the controller to turn one filter on or off. */
  class ChangeActiveFilters {
    const base: ViewChangeFilterEvent

    constructor ()
      ensures fresh(base) && fresh(base.base)
      ensures base.base.GetViewEventType() == VT.ChangeActiveFilters
      ensures base.GetFilterType() == FilterType.None && !base.GetIsActive()
    {
      var event := new ViewChangeFilterEvent(VT.ChangeActiveFilters);
      event.filterType := FilterType.None;
      event.isActive := false;
      base := event;
    }

    method SetActiveFilterType(filterType: FilterType, isActive: bool)
      modifies base
      ensures base.GetFilterType() == filterType && base.GetIsActive() == isActive
    {
      base.filterType := filterType;
      base.isActive := isActive;
    }
  }

  /** Asks the controller to add a filter to, or drop it from, the combined view. */
  class ChangeActiveFiltersOnCombinedFilter {
    const base: ViewChangeFilterEvent

    constructor ()
      ensures fresh(base) && fresh(base.base)
      ensures base.base.GetViewEventType() == VT.ChangeActiveFiltersOnCombinedFilter
      ensures base.GetFilterType() == FilterType.None && !base.GetIsActive()
    {
      var event := new ViewChangeFilterEvent(VT.ChangeActiveFiltersOnCombinedFilter);
      event.filterType := FilterType.None;
      event.isActive := false;
      base := event;
    }

    method SetActiveFilterTypeOnCombined(filterType: FilterType, isActive: bool)
      modifies base
      ensures base.GetFilterType() == filterType && base.GetIsActive() == isActive
    {
      base.filterType := filterType;
      base.isActive := isActive;
    }
  }

  /** Asks the controller to switch the combined view on or off. */
  class ActivateCombinedFilter {
    const base: ViewEvent
    var activateCombinedFilter: bool

    constructor ()
      ensures fresh(base) && base.GetViewEventType() == VT.ActivateCombinedFilter
      ensures !GetActivateCombinedFilter()
    {
      base := new ViewEvent(VT.ActivateCombinedFilter);
      activateCombinedFilter := false;
    }

    method SetActivateCombinedFilter(activateCombinedFilter: bool)
      modifies this
      ensures GetActivateCombinedFilter() == activateCombinedFilter
    {
      this.activateCombinedFilter := activateCombinedFilter;
    }

    function GetActivateCombinedFilter(): (b: bool)
      reads this
      ensures b == activateCombinedFilter
    {
      activateCombinedFilter
    }
  }
}
