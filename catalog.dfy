/** Service rates as the backend's `/service-rates` endpoint delivers them, and the two
    lookups the booking pages perform on a list of them. */
module Catalog {
  import opened Wrappers
  import opened Seqs

  /** One priced combination of a vehicle size and a service type. `price` is in
      centavos (the backend sends a decimal string). */
  datatype ServiceRate = ServiceRate(
    serviceRateID: int,
    vehicleSizeCode: string,
    vehicleSizeDescription: string,
    serviceTypeName: string,
    price: int)

  /** `services.filter(s => s.vehicleSizeCode === code)`. */
  function BySize(services: seq<ServiceRate>, code: string): (r: seq<ServiceRate>)
    ensures forall s :: s in r <==> s in services && s.vehicleSizeCode == code
    ensures |r| <= |services|
  {
    Filter(services, (s: ServiceRate) => s.vehicleSizeCode == code)
  }

  /** The size filter keeps the input order and each matching rate as often as it occurs. */
  lemma BySizeIsOrderedSelection(services: seq<ServiceRate>, code: string)
    ensures IsSubseq(BySize(services, code), services)
    ensures forall s ::
              multiset(BySize(services, code))[s] == if s.vehicleSizeCode == code then multiset(services)[s] else 0
  {
    FilterIsSubseq(services, (s: ServiceRate) => s.vehicleSizeCode == code);
    FilterMultiset(services, (s: ServiceRate) => s.vehicleSizeCode == code);
  }

  /** `services.find(s => s.serviceRateID === id)`: the first rate with that id. */
  function FindById(services: seq<ServiceRate>, id: int): (r: Option<ServiceRate>)
    ensures r.Some? ==> r.value in services && r.value.serviceRateID == id
    ensures r.Some? ==>
              exists k :: 0 <= k < |services| && services[k] == r.value &&
                          forall j :: 0 <= j < k ==> services[j].serviceRateID != id
    ensures r.None? <==> forall s :: s in services ==> s.serviceRateID != id
  {
    match FirstIndex(services, (s: ServiceRate) => s.serviceRateID == id)
    case None => None
    case Some(k) => Some(services[k])
  }

  /** The price the total adds for one selected id: nothing for an id not in the list. */
  function PriceOf(services: seq<ServiceRate>, id: int): (r: int)
    ensures (forall s :: s in services ==> s.serviceRateID != id) ==> r == 0
    ensures (forall s :: s in services ==> s.price >= 0) ==> r >= 0
    ensures r != 0 ==> exists s :: s in services && s.serviceRateID == id && s.price == r
  {
    match FindById(services, id)
    case Some(s) => s.price
    case None => 0
  }
}
