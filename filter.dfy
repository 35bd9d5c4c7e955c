/** The filter screen: it edits a local copy of the shared filters and sort
    key, and copies both back only when the user applies them. */
module FilterModal {
  import opened ListToggle
  import opened JobContext

  /** The filters after toggling one job type. */
  function WithJobTypeToggled(f: JobFilters, jobType: string): (r: JobFilters)
    ensures r.wageRange == f.wageRange && r.japaneseLevels == f.japaneseLevels && r.workDays == f.workDays
    ensures jobType in r.jobTypes <==> jobType !in f.jobTypes
    ensures forall t :: t != jobType ==> (t in r.jobTypes <==> t in f.jobTypes)
  {
    f.(jobTypes := Toggle(f.jobTypes, jobType))
  }

  /** The filters after toggling one Japanese level. */
  function WithJapaneseLevelToggled(f: JobFilters, level: string): (r: JobFilters)
    ensures r.wageRange == f.wageRange && r.jobTypes == f.jobTypes && r.workDays == f.workDays
    ensures level in r.japaneseLevels <==> level !in f.japaneseLevels
    ensures forall l :: l != level ==> (l in r.japaneseLevels <==> l in f.japaneseLevels)
  {
    f.(japaneseLevels := Toggle(f.japaneseLevels, level))
  }

  /** The filters after toggling one work day. */
  function WithWorkDayToggled(f: JobFilters, day: string): (r: JobFilters)
    ensures r.wageRange == f.wageRange && r.jobTypes == f.jobTypes && r.japaneseLevels == f.japaneseLevels
    ensures day in r.workDays <==> day !in f.workDays
    ensures forall d :: d != day ==> (d in r.workDays <==> d in f.workDays)
  {
    f.(workDays := Toggle(f.workDays, day))
  }

  /** No list of the filters holds a value twice. */
  predicate WellFormed(f: JobFilters) {
    NoDuplicates(f.jobTypes) && NoDuplicates(f.japaneseLevels) && NoDuplicates(f.workDays)
  }

  /** Every toggle keeps the filter lists free of duplicates. */
  lemma TogglesKeepWellFormed(f: JobFilters, item: string)
    requires WellFormed(f)
    ensures WellFormed(WithJobTypeToggled(f, item))
    ensures WellFormed(WithJapaneseLevelToggled(f, item))
    ensures WellFormed(WithWorkDayToggled(f, item))
  {
    TogglePreservesNoDuplicates(f.jobTypes, item);
    TogglePreservesNoDuplicates(f.japaneseLevels, item);
    TogglePreservesNoDuplicates(f.workDays, item);
  }

  /** Toggling an unselected work day twice gives the filters back exactly. */
  lemma ToggleWorkDayTwice(f: JobFilters, day: string)
    requires day !in f.workDays
    ensures WithWorkDayToggled(WithWorkDayToggled(f, day), day) == f
  {
    ToggleTwiceAbsent(f.workDays, day);
  }

  /** The screen's state: its local copies and the shared store. */
  class FilterModal {
    const store: JobStore
    var localFilters: JobFilters
    var localSortBy: SortOption

    /** The screen opens on the shared settings. */
    constructor (store: JobStore)
      ensures this.store == store
      ensures localFilters == store.filters && localSortBy == store.sortBy
    {
      this.store := store;
      localFilters := store.filters;
      localSortBy := store.sortBy;
    }

    method ToggleJobType(jobType: string)
      modifies this`localFilters
      ensures localFilters == WithJobTypeToggled(old(localFilters), jobType)
    {
      localFilters := WithJobTypeToggled(localFilters, jobType);
    }

    method ToggleJapaneseLevel(level: string)
      modifies this`localFilters
      ensures localFilters == WithJapaneseLevelToggled(old(localFilters), level)
    {
      localFilters := WithJapaneseLevelToggled(localFilters, level);
    }

    method ToggleWorkDay(day: string)
      modifies this`localFilters
      ensures localFilters == WithWorkDayToggled(old(localFilters), day)
    {
      localFilters := WithWorkDayToggled(localFilters, day);
    }

    method SelectSort(s: SortOption)
      modifies this`localSortBy
      ensures localSortBy == s
    {
      localSortBy := s;
    }

    /** Reset: the local settings return to what the store starts with. The
        store is not touched. */
    method HandleReset()
      modifies this`localFilters, this`localSortBy
      ensures localFilters == InitialFilters() && localSortBy == Date
    {
      localFilters := InitialFilters();
      localSortBy := Date;
    }

    /** Apply: both local settings are copied into the store. */
    method HandleApply()
      modifies store`filters, store`sortBy
      ensures store.filters == localFilters && store.sortBy == localSortBy
      ensures store.applications == old(store.applications)
    {
      store.SetFilters(localFilters);
      store.SetSortBy(localSortBy);
    }
  }

  /** Local edits leave the shared settings as they were; only applying
      publishes them, and then both the filters and the sort key. */
  method EditThenApply(store: JobStore, day: string, level: string)
    modifies store
    ensures store.filters == WithJapaneseLevelToggled(WithWorkDayToggled(old(store.filters), day), level)
    ensures store.sortBy == Wage
  {
    var screen := new FilterModal(store);
    screen.ToggleWorkDay(day);
    screen.ToggleJapaneseLevel(level);
    screen.SelectSort(Wage);
    assert store.filters == old(store.filters) && store.sortBy == old(store.sortBy);
    screen.HandleApply();
  }
}
