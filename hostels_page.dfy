/**
 * The listing page's client-side filter over the sample hostels: an empty
 * field lets every hostel through, the location is a case-sensitive
 * substring test, the type an exact match and the price an upper bound.
 */
module HostelsPage {
  import opened Wrappers
  import opened Seqs
  import opened Text

  datatype SampleHostel = SampleHostel(name: string, location: string, htype: string, price: int)

  /** The three filter fields; an empty text field is "" and an empty price None. */
  datatype Filters = Filters(location: string, htype: string, maxPrice: Option<int>)

  const NoFilters: Filters := Filters("", "", None)

  predicate Passes(f: Filters, h: SampleHostel) {
    && (f.location != "" ==> Contains(h.location, f.location))
    && (f.htype != "" ==> h.htype == f.htype)
    && (f.maxPrice.Some? ==> h.price <= f.maxPrice.value)
  }

  /** filteredHostels: the hostels that pass every given criterion, in their
      original order. */
  function FilteredHostels(hostels: seq<SampleHostel>, f: Filters): (r: seq<SampleHostel>)
    ensures forall h :: h in r <==> h in hostels && Passes(f, h)
    ensures SubsequenceOf(r, hostels)
    ensures forall h :: multiset(r)[h] == if Passes(f, h) then multiset(hostels)[h] else 0
  {
    var passes := h => Passes(f, h);
    FilterKeepsCounts(hostels, passes);
    Filter(hostels, passes)
  }

  /** With no filter set, every hostel is listed, in order. */
  lemma NoFiltersListAll(hostels: seq<SampleHostel>)
    ensures FilteredHostels(hostels, NoFilters) == hostels
  {
    FilterAll(hostels, h => Passes(NoFilters, h));
  }

  /** The location test is case-sensitive: "pune" does not find "Pune". */
  lemma LocationCaseSensitive()
    ensures FilteredHostels([SampleHostel("Sunrise", "Pune", "Boys Hostel", 6000)], Filters("pune", "", None)) == []
  {
    var h := SampleHostel("Sunrise", "Pune", "Boys Hostel", 6000);
    MissingCharNotContained("Pune", "pune", 'p');
    assert !Passes(Filters("pune", "", None), h);
  }

  /** Adding a criterion can only shorten the list. */
  lemma NarrowingKeepsSublist(hostels: seq<SampleHostel>, f: Filters, bound: int)
    requires f.maxPrice.None?
    ensures forall h :: h in FilteredHostels(hostels, f.(maxPrice := Some(bound))) ==>
      h in FilteredHostels(hostels, f) && h.price <= bound
  {
  }
}
