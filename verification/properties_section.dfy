/**
 * The landing page's property listing: a tenant-type filter whose "All" entry
 * matches every record, and the ROI badge shown only on the hovered card.
 */
module PropertiesSection {
  import opened Wrappers
  import opened Seqs

  datatype Listing = Listing(id: nat, name: string, tenant: string, tenantType: string)

  const Listings: seq<Listing> := [
    Listing(1, "Premium Bank Leased Property", "HDFC Bank", "Bank"),
    Listing(2, "Corporate Office Space", "Infosys Ltd", "IT"),
    Listing(3, "Retail Showroom", "Reliance Retail", "Retail"),
    Listing(4, "Commercial Complex Unit", "Axis Bank", "Bank"),
    Listing(5, "IT Park Office Space", "TCS", "IT"),
    Listing(6, "Standalone Bank Branch", "ICICI Bank", "Bank")
  ]

  const AllFilter := "All"
  const Filters: seq<string> := [AllFilter, "Bank", "IT", "Retail"]

  /** Whether a card passes the active filter. */
  predicate Shown(filter: string, p: Listing) {
    filter == AllFilter || p.tenantType == filter
  }

  /** The filter callback for one filter value. */
  function ShownBy(filter: string): Listing -> bool {
    p => Shown(filter, p)
  }

  /** The cards rendered under the active filter. */
  function FilteredListings(listings: seq<Listing>, filter: string): (r: seq<Listing>)
    ensures |r| <= |listings|
    ensures forall p :: p in r ==> p in listings && Shown(filter, p)
  {
    Filter(listings, ShownBy(filter))
  }

  /** With "All" every card is shown, unchanged and in order. */
  lemma AllShowsEverything(listings: seq<Listing>)
    ensures FilteredListings(listings, AllFilter) == listings
  {
    FilterAllKept(listings, ShownBy(AllFilter));
  }

  /**
   * With any other filter exactly the cards of that tenant type are shown, each
   * as often as it occurs in the listing, and the order of a split listing is
   * kept.
   */
  lemma OtherFilterShowsTenantType(listings: seq<Listing>, filter: string, p: Listing)
    requires filter != AllFilter
    ensures p in FilteredListings(listings, filter) <==> p in listings && p.tenantType == filter
    ensures multiset(FilteredListings(listings, filter))[p] ==
            if p.tenantType == filter then multiset(listings)[p] else 0
  {
    FilterMembership(listings, ShownBy(filter), p);
    FilterCount(listings, ShownBy(filter), p);
  }

  /** Filtering keeps the original order: it distributes over any split of the listing. */
  lemma FilterKeepsOrder(front: seq<Listing>, back: seq<Listing>, filter: string)
    ensures FilteredListings(front + back, filter) == FilteredListings(front, filter) + FilteredListings(back, filter)
  {
    FilterConcat(front, back, ShownBy(filter));
  }

  /** Applying the same filter to an already filtered list changes nothing. */
  lemma FilterTwiceIsFilterOnce(listings: seq<Listing>, filter: string)
    ensures FilteredListings(FilteredListings(listings, filter), filter) == FilteredListings(listings, filter)
  {
    FilterIdempotent(listings, ShownBy(filter));
  }

  /** On the shown data the "Bank" filter shows cards 1, 4 and 6. */
  lemma BankFilterShows()
    ensures FilteredListings(Listings, "Bank") == [Listings[0], Listings[3], Listings[5]]
  {
    var f := ShownBy("Bank");
    assert f(Listings[0]) && !f(Listings[1]) && !f(Listings[2]) && f(Listings[3]) && !f(Listings[4]) && f(Listings[5]);
    FilterKeepsFirstFourthSixth(Listings, f);
  }

  lemma FilterKeepsFirstFourthSixth(ls: seq<Listing>, f: Listing -> bool)
    requires |ls| == 6
    requires f(ls[0]) && !f(ls[1]) && !f(ls[2]) && f(ls[3]) && !f(ls[4]) && f(ls[5])
    ensures Filter(ls, f) == [ls[0], ls[3], ls[5]]
  {
    assert ls[5..][1..] == [] && ls[4..][1..] == ls[5..] && ls[3..][1..] == ls[4..];
    assert ls[2..][1..] == ls[3..] && ls[1..][1..] == ls[2..];
    assert Filter(ls[5..], f) == [ls[5]];
    assert Filter(ls[4..], f) == [ls[5]];
    assert Filter(ls[3..], f) == [ls[3], ls[5]];
    assert Filter(ls[2..], f) == [ls[3], ls[5]];
    assert Filter(ls[1..], f) == [ls[3], ls[5]];
  }

  /** On the shown data the "IT" filter shows cards 2 and 5. */
  lemma ItFilterShows()
    ensures FilteredListings(Listings, "IT") == [Listings[1], Listings[4]]
  {
  }

  /** On the shown data the "Retail" filter shows card 3 only. */
  lemma RetailFilterShows()
    ensures FilteredListings(Listings, "Retail") == [Listings[2]]
  {
  }

  /** So the three tenant filters split the six cards 3 / 2 / 1 between them. */
  lemma TenantFiltersPartitionListings()
    ensures |FilteredListings(Listings, "Bank")| + |FilteredListings(Listings, "IT")|
            + |FilteredListings(Listings, "Retail")| == |Listings|
    ensures forall p :: p in Listings ==>
      (p in FilteredListings(Listings, "Bank")) || (p in FilteredListings(Listings, "IT")) || (p in FilteredListings(Listings, "Retail"))
  {
    BankFilterShows();
    ItFilterShows();
    RetailFilterShows();
  }

  /** Card ids are distinct, as their use as list keys requires. */
  lemma ListingIdsDistinct()
    ensures forall i, j :: 0 <= i < j < |Listings| ==> Listings[i].id != Listings[j].id
  {
  }

  /** The section's state: the active filter and the card under the mouse, if any. */
  class ListingView {
    var activeFilter: string
    var hoveredProperty: Option<nat>

    ghost predicate Valid()
      reads this
    {
      activeFilter in Filters
    }

    /** Whether the ROI badge of card `id` is visible; when it is, no other card's badge is. */
    function BadgeVisible(id: nat): (r: bool)
      reads this
      ensures r ==> forall other :: other != id ==> hoveredProperty != Some(other)
    {
      hoveredProperty == Some(id)
    }

    /** The cards currently rendered. */
    function Visible(): (r: seq<Listing>)
      reads this
      ensures forall p :: p in r ==> p in Listings && Shown(activeFilter, p)
      ensures activeFilter == AllFilter ==> r == Listings
    {
      AllShowsEverything(Listings);
      FilteredListings(Listings, activeFilter)
    }

    constructor ()
      ensures Valid() && activeFilter == AllFilter && hoveredProperty == None
    {
      activeFilter := AllFilter;
      hoveredProperty := None;
    }

    /** A click on one of the filter buttons. */
    method SelectFilter(filter: string)
      requires Valid() && filter in Filters
      modifies this`activeFilter
      ensures Valid() && activeFilter == filter
    {
      activeFilter := filter;
    }

    /** The mouse enters card `id`: its badge, and no other, becomes visible. */
    method MouseEnter(id: nat)
      requires exists p :: p in Visible() && p.id == id
      modifies this`hoveredProperty
      ensures BadgeVisible(id)
      ensures forall other :: other != id ==> !BadgeVisible(other)
    {
      hoveredProperty := Some(id);
    }

    /** The mouse leaves a card: no badge is visible. */
    method MouseLeave()
      modifies this`hoveredProperty
      ensures forall id :: !BadgeVisible(id)
    {
      hoveredProperty := None;
    }
  }

  /** In every state at most one card of the listing shows its badge. */
  lemma AtMostOneBadge(v: ListingView, i: nat, j: nat)
    requires i < j < |Listings|
    ensures !(v.BadgeVisible(Listings[i].id) && v.BadgeVisible(Listings[j].id))
  {
    ListingIdsDistinct();
  }
}
