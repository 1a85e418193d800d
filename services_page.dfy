/** The customer's service catalogue page (`ServicesPage`): the loaded rates and the
    subset shown for the chosen vehicle size, where `"ALL"` shows everything. */
module VehicleFilter {
  import opened Seqs
  import opened Catalog

  const All: string := "ALL"

  /** What the page shows for a chosen size. */
  function Shown(services: seq<ServiceRate>, size: string): (r: seq<ServiceRate>)
    ensures size == All ==> r == services
    ensures size != All ==> forall s :: s in r <==> s in services && s.vehicleSizeCode == size
    ensures IsSubseq(r, services)
  {
    if size == All then (IsSubseqRefl(services); services)
    else (BySizeIsOrderedSelection(services, size); BySize(services, size))
  }

  /** A size other than "ALL" shows each matching rate exactly as often as it is loaded. */
  lemma ShownCounts(services: seq<ServiceRate>, size: string)
    requires size != All
    ensures forall s ::
              multiset(Shown(services, size))[s] == if s.vehicleSizeCode == size then multiset(services)[s] else 0
  {
    BySizeIsOrderedSelection(services, size);
  }

  class ServicesPage {
    var services: seq<ServiceRate>
    var filteredServices: seq<ServiceRate>
    var vehicleSizes: seq<string>
    var selectedSize: string

    /** The shown list agrees with the chosen size. */
    predicate Consistent()
      reads this
    {
      filteredServices == Shown(services, selectedSize)
    }

    constructor ()
      ensures services == [] && filteredServices == [] && vehicleSizes == [] && selectedSize == All
      ensures Consistent()
    {
      services := [];
      filteredServices := [];
      vehicleSizes := [];
      selectedSize := All;
    }

    /** The `next` handler of `loadServices()`: store, then re-apply the filter. */
    method LoadServices(data: seq<ServiceRate>)
      modifies this`services, this`filteredServices
      ensures services == data && selectedSize == old(selectedSize)
      ensures Consistent()
    {
      services := data;
      FilterServices();
    }

    /** The `next` handler of `loadVehicleSizes()`. */
    method LoadVehicleSizes(data: seq<string>)
      modifies this`vehicleSizes
      ensures vehicleSizes == data
    {
      vehicleSizes := data;
    }

    method SelectSize(sizeCode: string)
      modifies this`selectedSize, this`filteredServices
      ensures selectedSize == sizeCode && services == old(services)
      ensures Consistent()
    {
      selectedSize := sizeCode;
      FilterServices();
    }

    method FilterServices()
      modifies this`filteredServices
      ensures Consistent()
    {
      if selectedSize == All {
        filteredServices := services;
      } else {
        filteredServices := BySize(services, selectedSize);
      }
    }
  }
}
