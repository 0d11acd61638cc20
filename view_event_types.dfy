/** The tag every view event carries, naming which reconfiguration it asks for. */
module ViewEventTypes {

  datatype ViewEventType =
    | ActivateCombinedFilter
    | ChangeActiveFilters
    | ChangeActiveFiltersOnCombinedFilter
    | None
}
