/** The admin service list (`ServiceListComponent`): the fetched service rates cut into
    pages of ten, page moves that stay within the page count, and the in-place update of
    one entry after the edit dialog closes. */
module ServiceListing {
  import opened Wrappers
  import opened Seqs
  import opened Catalog

  /** The four fields the list keeps of each fetched rate; `serviceType` is the rate's
      service-type name. */
  datatype ServiceRow = ServiceRow(serviceRateID: int, vehicleSizeCode: string, serviceType: string, price: int)

  /** `displayCount`. */
  const PageSize: nat := 10

  /** `data.map(service => ({serviceRateID, vehicleSizeCode, service_type, price}))`. */
  function Project(data: seq<ServiceRate>): (rows: seq<ServiceRow>)
    ensures |rows| == |data|
    ensures forall i :: 0 <= i < |data| ==>
              rows[i].serviceRateID == data[i].serviceRateID && rows[i].vehicleSizeCode == data[i].vehicleSizeCode &&
              rows[i].serviceType == data[i].serviceTypeName && rows[i].price == data[i].price
  {
    Map(data, (s: ServiceRate) => ServiceRow(s.serviceRateID, s.vehicleSizeCode, s.serviceTypeName, s.price))
  }

  /** `Math.ceil(n / displayCount)`. */
  function PageCount(n: nat): (pages: nat)
    ensures PageSize * pages >= n
    ensures pages > 0 ==> PageSize * (pages - 1) < n
    ensures pages == 0 <==> n == 0
  {
    (n + PageSize - 1) / PageSize
  }

  /** An index argument of `Array.prototype.slice`: negative ones count from the end, and
      both ends are clipped to the array. */
  function SliceIndex(i: int, n: nat): (k: nat)
    ensures k <= n
    ensures 0 <= i <= n ==> k == i
    ensures i > n ==> k == n
  {
    if i < 0 then (if n + i < 0 then 0 else n + i) else if i > n then n else i
  }

  /** `s.slice(start, end)`. */
  function Slice<T>(s: seq<T>, start: int, end: int): seq<T> {
    var b, e := SliceIndex(start, |s|), SliceIndex(end, |s|);
    if b < e then s[b..e] else []
  }

  /** `services.slice((page - 1) * displayCount, (page - 1) * displayCount + displayCount)`. */
  function Page<T>(services: seq<T>, page: int): seq<T> {
    var start := (page - 1) * PageSize;
    Slice(services, start, start + PageSize)
  }

  /** From page 1 on, a page is the clipped run of at most ten entries starting at
      `(page - 1) * 10`, and it is empty exactly past the last page. */
  lemma PageIsContiguousRun<T>(services: seq<T>, page: int)
    requires page >= 1
    ensures var start := (page - 1) * PageSize;
            var end := if start + PageSize < |services| then start + PageSize else |services|;
            Page(services, page) == if start < |services| then services[start..end] else []
    ensures |Page(services, page)| <= PageSize
    ensures Page(services, page) == [] <==> page > PageCount(|services|)
  {
  }

  /** `count` pages starting at page `first`, concatenated. */
  function Pages<T>(services: seq<T>, first: int, count: nat): seq<T>
    decreases count
  {
    if count == 0 then [] else Page(services, first) + Pages(services, first + 1, count - 1)
  }

  /** Pages 1 to `PageCount` put back together give the whole list. */
  lemma PagesCoverServices<T>(services: seq<T>)
    ensures Pages(services, 1, PageCount(|services|)) == services
  {
    PagesFrom(services, 1);
  }

  lemma {:induction false} PagesFrom<T>(services: seq<T>, page: int)
    requires page >= 1 && (page - 1) * PageSize <= |services|
    ensures PageCount(|services|) >= page - 1
    ensures Pages(services, page, PageCount(|services|) - (page - 1)) == services[(page - 1) * PageSize..]
    decreases |services| - (page - 1) * PageSize
  {
    var start := (page - 1) * PageSize;
    var count := PageCount(|services|);
    if start == |services| {
      assert count == page - 1;
    } else {
      PageIsContiguousRun(services, page);
      if start + PageSize >= |services| {
        assert count == page;
        assert Pages(services, page + 1, 0) == [];
      } else {
        PagesFrom(services, page + 1);
        assert services[start..] == services[start..start + PageSize] + services[start + PageSize..];
      }
    }
  }

  class ServiceListComponent {
    var services: seq<ServiceRow>
    var displayedServices: seq<ServiceRow>
    var currentPage: int
    var totalPages: int

    /** The page shown is the slice for the current page, which is never below 1. */
    ghost predicate Valid()
      reads this
    {
      1 <= currentPage && displayedServices == Page(services, currentPage)
    }

    /** The current page does not pass the last page (page 1 always counts). */
    ghost predicate InBounds()
      reads this
    {
      currentPage <= 1 || currentPage <= totalPages
    }

    constructor ()
      ensures Valid() && InBounds()
      ensures services == [] && displayedServices == [] && currentPage == 1 && totalPages == 1
    {
      services := [];
      displayedServices := [];
      currentPage := 1;
      totalPages := 1;
    }

    /** The `next` handler of `loadServices()`. */
    method LoadServices(data: seq<ServiceRate>)
      requires Valid()
      modifies this
      ensures Valid()
      ensures services == Project(data) && totalPages == PageCount(|data|) && currentPage == old(currentPage)
      ensures old(currentPage) == 1 ==> InBounds()
    {
      services := Project(data);
      totalPages := PageCount(|services|);
      UpdateDisplayedServices();
    }

    method UpdateDisplayedServices()
      requires 1 <= currentPage
      modifies this`displayedServices
      ensures Valid()
    {
      var startIndex := (currentPage - 1) * PageSize;
      var endIndex := startIndex + PageSize;
      displayedServices := Slice(services, startIndex, endIndex);
    }

    /** `changePage(next)`: one page on or back, within `[1, totalPages]`. */
    method ChangePage(next: bool)
      requires Valid()
      modifies this`currentPage, this`displayedServices
      ensures Valid()
      ensures currentPage == if next && old(currentPage) < totalPages then old(currentPage) + 1
                             else if !next && old(currentPage) > 1 then old(currentPage) - 1
                             else old(currentPage)
      ensures old(InBounds()) ==> InBounds()
      ensures |displayedServices| <= PageSize
    {
      if next && currentPage < totalPages {
        currentPage := currentPage + 1;
      } else if !next && currentPage > 1 {
        currentPage := currentPage - 1;
      }
      UpdateDisplayedServices();
      PageIsContiguousRun(services, currentPage);
    }

    /** The edit dialog's dismissal: the record it returns replaces the first entry with
        the same `serviceRateID`, if any, and the page is refreshed. */
    method ApplyEdit(edited: Option<ServiceRow>)
      requires Valid()
      modifies this`services, this`displayedServices
      ensures Valid()
      ensures edited.None? ==> services == old(services) && displayedServices == old(displayedServices)
      ensures edited.Some? ==>
                services == ReplaceFirst(old(services), (s: ServiceRow) => s.serviceRateID == edited.value.serviceRateID, edited.value)
      ensures |services| == |old(services)|
    {
      if edited.Some? {
        var d := edited.value;
        services := ReplaceFirst(services, (s: ServiceRow) => s.serviceRateID == d.serviceRateID, d);
        UpdateDisplayedServices();
      }
    }
  }
}
