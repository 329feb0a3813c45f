/**
 * The portfolio gallery page: a catalog of logos (loaded from a JSON file),
 * posters and invitations; a category filter; featured items first, else the
 * first twelve; and a "View More" button when items are hidden.
 */
module Portfolio {
  import opened Wrappers
  import opened Seqs

  /** A catalog entry; `featured` is absent for most entries. */
  datatype PortfolioItem = PortfolioItem(
    id: int,
    title: string,
    description: string,
    image: string,
    category: string,
    featured: Option<bool>)

  /** The category id that selects the whole catalog. */
  const AllCategory: string := "all"

  /** The category ids of the filter buttons, in display order. */
  const Categories: seq<string> := ["all", "logo", "poster", "invitation"]

  /** How many items the view shows when none is featured. */
  const DisplayLimit: nat := 12

  /** `item.featured` is truthy: an absent flag counts as false. */
  predicate IsFeatured(item: PortfolioItem) {
    item.featured == Some(true)
  }

  /** The test `item.category === category`, as a predicate value to filter with. */
  function InCategory(category: string): PortfolioItem -> bool {
    (item: PortfolioItem) => item.category == category
  }

  /** filteredItems: the whole catalog for 'all', otherwise the items of the selected category. */
  function FilteredItems(items: seq<PortfolioItem>, selectedCategory: string): (r: seq<PortfolioItem>)
    ensures selectedCategory == AllCategory ==> r == items
    ensures selectedCategory != AllCategory ==> forall i :: 0 <= i < |r| ==> r[i].category == selectedCategory
  {
    if selectedCategory == AllCategory then items
    else Filter(items, InCategory(selectedCategory))
  }

  /** featuredItems: the filtered items whose flag is set. */
  function FeaturedItems(filtered: seq<PortfolioItem>): (r: seq<PortfolioItem>)
    ensures forall i :: 0 <= i < |r| ==> IsFeatured(r[i])
  {
    Filter(filtered, IsFeatured)
  }

  /** displayItems: the featured items when there are any, otherwise the first twelve. */
  function DisplayItems(filtered: seq<PortfolioItem>): (r: seq<PortfolioItem>)
    ensures FeaturedItems(filtered) != [] ==> r == FeaturedItems(filtered)
    ensures FeaturedItems(filtered) == [] ==> r == filtered[..Min(DisplayLimit, |filtered|)]
  {
    var featured := FeaturedItems(filtered);
    if |featured| > 0 then featured else filtered[..Min(DisplayLimit, |filtered|)]
  }

  /** The "View More Work" button is rendered. */
  predicate ShowViewMore(filtered: seq<PortfolioItem>): (r: bool)
    ensures FeaturedItems(filtered) == [] ==> (r <==> |filtered| > DisplayLimit)
    ensures FeaturedItems(filtered) != [] ==> (r <==> |FeaturedItems(filtered)| < |filtered|)
  {
    |filtered| > |DisplayItems(filtered)|
  }

  /**
   * Under a named category the view list holds exactly that category's items,
   * each as often as in the catalog and in catalog order; an item whose
   * category is not among the filter buttons is never listed under one.
   */
  lemma FilteredItemsExact(items: seq<PortfolioItem>, selectedCategory: string, x: PortfolioItem)
    requires selectedCategory != AllCategory
    ensures multiset(FilteredItems(items, selectedCategory))[x] ==
            if x.category == selectedCategory then multiset(items)[x] else 0
    ensures IsSubsequence(FilteredItems(items, selectedCategory), items)
    ensures x.category !in Categories && selectedCategory in Categories ==> x !in FilteredItems(items, selectedCategory)
  {
    FilterCount(items, InCategory(selectedCategory), x);
    FilterMembership(items, InCategory(selectedCategory), x);
    FilterIsSubsequence(items, InCategory(selectedCategory));
  }

  /** The featured items are exactly the flagged ones among the filtered, in order; unflagged ones are left out. */
  lemma FeaturedItemsExact(filtered: seq<PortfolioItem>, x: PortfolioItem)
    ensures multiset(FeaturedItems(filtered))[x] == if IsFeatured(x) then multiset(filtered)[x] else 0
    ensures x.featured.None? ==> x !in FeaturedItems(filtered)
    ensures IsSubsequence(FeaturedItems(filtered), filtered)
  {
    FilterCount(filtered, IsFeatured, x);
    FilterMembership(filtered, IsFeatured, x);
    FilterIsSubsequence(filtered, IsFeatured);
  }

  /** The view never shows more than the filtered list, and without featured items at most twelve. */
  lemma DisplayItemsBounds(filtered: seq<PortfolioItem>)
    ensures |DisplayItems(filtered)| <= |filtered|
    ensures FeaturedItems(filtered) == [] ==> |DisplayItems(filtered)| == Min(DisplayLimit, |filtered|)
    ensures multiset(DisplayItems(filtered)) <= multiset(filtered)
  {
    if FeaturedItems(filtered) != [] {
      forall x ensures multiset(FeaturedItems(filtered))[x] <= multiset(filtered)[x] {
        FilterCount(filtered, IsFeatured, x);
      }
    } else {
      PrefixMultiset(filtered, Min(DisplayLimit, |filtered|));
    }
  }

  /**
   * "View More" appears exactly when some filtered item is hidden: some item
   * is unflagged while others are featured, or nothing is featured and there
   * are more than twelve. An empty view list never shows it.
   */
  lemma ViewMoreExactly(filtered: seq<PortfolioItem>)
    ensures ShowViewMore(filtered) <==>
            ((exists i :: 0 <= i < |filtered| && IsFeatured(filtered[i])) &&
             (exists i :: 0 <= i < |filtered| && !IsFeatured(filtered[i]))) ||
            ((forall i :: 0 <= i < |filtered| ==> !IsFeatured(filtered[i])) && |filtered| > DisplayLimit)
    ensures filtered == [] ==> !ShowViewMore(filtered)
  {
    FilterEmpty(filtered, IsFeatured);
    FilterKeepsAll(filtered, IsFeatured);
  }

  // ---------------------------------------------------------------------------
  // Loading the catalog

  /** The hard-coded posters, in source order (the first four are featured). */
  const Posters: seq<PortfolioItem> := [
    PortfolioItem(101, "Digital Marketing Webinar", "Professional webinar promotion poster",
      "/posters/digital marketing webinar (5).jpg", "poster", Some(true)),
    PortfolioItem(102, "Real Estate Facebook Post", "Blue and orange real estate promotion design",
      "/posters/Blue and Orange Simple Real Estate Promo Facebook Post (3).jpg", "poster", Some(true)),
    PortfolioItem(103, "Land Sale Advertisement", "Professional land sale poster design",
      "/posters/Land For Sale (10).jpg", "poster", Some(true)),
    PortfolioItem(104, "Digital Marketing Agency", "Green modern digital marketing agency post",
      "/posters/Green Modern Digital Marketing Agency (Facebook Post).jpg", "poster", Some(true)),
    PortfolioItem(105, "Business Contact Card", "Professional business contact design",
      "/posters/074 3012 735 (2).jpg", "poster", None),
    PortfolioItem(106, "Rental Services", "Professional rental services advertisement",
      "/posters/Rental Services.jpg", "poster", None),
    PortfolioItem(107, "Farm Activities", "Farm activities promotional design",
      "/posters/our activities while on the farm.jpg", "poster", None),
    PortfolioItem(108, "Smart Life Upgrade", "Technology upgrade promotional poster",
      "/posters/Upgrade to a Smarter Life!.jpg", "poster", None)]

  /** The hard-coded invitations, both featured. */
  const Invitations: seq<PortfolioItem> := [
    PortfolioItem(201, "Indian Wedding Invitation", "Light pink royal elegant floral wedding invitation",
      "/invitations/Light Pink Royal Elegant Floral Indian Wedding Invitation .jpg", "invitation", Some(true)),
    PortfolioItem(202, "Formal Event Invitation", "We cordially invite you - elegant invitation design",
      "/invitations/We Cordially invite You (1).jpg", "invitation", Some(true))]

  /** The component's state: the catalog, the selected category and the loading flag. */
  datatype PortfolioState = PortfolioState(items: seq<PortfolioItem>, selectedCategory: string, loading: bool)

  /** Before the loader has finished: empty catalog, category 'all', spinner shown. */
  const InitialState: PortfolioState := PortfolioState([], AllCategory, true)

  /**
   * The loader's one-time update: on success the catalog is the fetched logos,
   * then the posters, then the invitations; on failure the catalog stays as it
   * was. Either way loading ends.
   */
  function AfterLoad(s: PortfolioState, fetched: Result<seq<PortfolioItem>, string>): (r: PortfolioState)
    ensures !r.loading && r.selectedCategory == s.selectedCategory
    ensures fetched.Success? ==> r.items == fetched.value + Posters + Invitations
    ensures fetched.Failure? ==> r.items == s.items
  {
    match fetched
    case Success(logos) => s.(items := logos + Posters + Invitations, loading := false)
    case Failure(_) => s.(loading := false)
  }

  /** A click on a category button. */
  function SelectCategory(s: PortfolioState, category: string): (r: PortfolioState)
    ensures r.selectedCategory == category && r.items == s.items && r.loading == s.loading
  {
    s.(selectedCategory := category)
  }

  /** The cards on screen: none while loading, the display items afterwards. */
  function VisibleCards(s: PortfolioState): (r: seq<PortfolioItem>)
    ensures s.loading ==> r == []
    ensures !s.loading ==> r == DisplayItems(FilteredItems(s.items, s.selectedCategory))
  {
    if s.loading then [] else DisplayItems(FilteredItems(s.items, s.selectedCategory))
  }

  /** A failed load leaves an empty gallery without a "View More" button, under every category. */
  lemma FailedLoadShowsNothing(error: string, category: string)
    ensures AfterLoad(InitialState, Failure(error)).items == []
    ensures VisibleCards(SelectCategory(AfterLoad(InitialState, Failure(error)), category)) == []
    ensures !ShowViewMore(FilteredItems([], category))
  {
    assert Filter([], InCategory(category)) == [];
  }

  /** Every poster is filed as a poster and only the first four are featured. */
  lemma PostersAreTagged()
    ensures forall i :: 0 <= i < |Posters| ==> Posters[i].category == "poster"
    ensures forall i :: 0 <= i < 4 ==> IsFeatured(Posters[i])
    ensures forall i :: 4 <= i < |Posters| ==> !IsFeatured(Posters[i])
  {
  }

  /** Every invitation is filed as an invitation and featured. */
  lemma InvitationsAreTagged()
    ensures forall i :: 0 <= i < |Invitations| ==> Invitations[i].category == "invitation" && IsFeatured(Invitations[i])
  {
  }

  /** Filtering a concatenation whose middle part alone holds the category yields that middle part. */
  lemma MiddleCategory(front: seq<PortfolioItem>, middle: seq<PortfolioItem>, back: seq<PortfolioItem>, category: string)
    requires forall i :: 0 <= i < |front| ==> front[i].category != category
    requires forall i :: 0 <= i < |middle| ==> middle[i].category == category
    requires forall i :: 0 <= i < |back| ==> back[i].category != category
    ensures Filter(front + middle + back, InCategory(category)) == middle
  {
    assert front + middle + back == front + (middle + back);
    FilterNoneAppend(front, middle + back, category);
    FilterAppend(middle, back, InCategory(category));
    FilterKeepsAll(middle, InCategory(category));
    FilterEmpty(back, InCategory(category));
  }

  /** The posters view of a loaded catalog, when no fetched logo is filed as a poster. */
  lemma PostersView(logos: seq<PortfolioItem>)
    requires forall i :: 0 <= i < |logos| ==> logos[i].category != "poster"
    ensures FilteredItems(logos + Posters + Invitations, "poster") == Posters
  {
    PostersAreTagged();
    InvitationsAreTagged();
    MiddleCategory(logos, Posters, Invitations, "poster");
  }

  /** Of the posters, the first four are the featured ones. */
  lemma FeaturedPosters()
    ensures FeaturedItems(Posters) == Posters[..4]
  {
    PostersAreTagged();
    var front, back := Posters[..4], Posters[4..];
    assert Posters == front + back;
    FilterAppend(front, back, IsFeatured);
    FilterKeepsAll(front, IsFeatured);
    FilterEmpty(back, IsFeatured);
  }

  /** The invitations view of a loaded catalog, when no fetched logo is filed as an invitation. */
  lemma InvitationsView(logos: seq<PortfolioItem>)
    requires forall i :: 0 <= i < |logos| ==> logos[i].category != "invitation"
    ensures FilteredItems(logos + Posters + Invitations, "invitation") == Invitations
    ensures FeaturedItems(Invitations) == Invitations
  {
    PostersAreTagged();
    InvitationsAreTagged();
    MiddleCategory(logos + Posters, Invitations, [], "invitation");
    assert logos + Posters + Invitations + [] == logos + Posters + Invitations;
    FilterKeepsAll(Invitations, IsFeatured);
  }

  /**
   * With the hard-coded posters and invitations, whatever logos were fetched
   * (as long as none is filed under those categories): the invitations view
   * shows both invitations and no "View More"; the posters view shows the four
   * featured posters and offers "View More".
   */
  lemma LoadedCatalogViews(logos: seq<PortfolioItem>)
    requires forall i :: 0 <= i < |logos| ==> logos[i].category != "poster" && logos[i].category != "invitation"
    ensures var items := AfterLoad(InitialState, Success(logos)).items;
            DisplayItems(FilteredItems(items, "invitation")) == Invitations &&
            !ShowViewMore(FilteredItems(items, "invitation")) &&
            DisplayItems(FilteredItems(items, "poster")) == Posters[..4] &&
            ShowViewMore(FilteredItems(items, "poster"))
  {
    PostersView(logos);
    FeaturedPosters();
    InvitationsView(logos);
  }

  lemma FilterNoneAppend(a: seq<PortfolioItem>, b: seq<PortfolioItem>, category: string)
    requires forall i :: 0 <= i < |a| ==> a[i].category != category
    ensures Filter(a + b, InCategory(category)) == Filter(b, InCategory(category))
  {
    FilterAppend(a, b, InCategory(category));
    FilterEmpty(a, InCategory(category));
  }
}
