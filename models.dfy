/** The planner's records: destinations, trips, tags, activities, the packing
    catalogue and the links between trips and packing items, with their field
    defaults, their text renderings, their default orderings and their
    uniqueness constraints.

    Money (`DecimalField` with two decimal places) is held in cents, a date in
    days, a creation time as a timestamp and a coordinate in units of 1e-5
    degree. Foreign keys are the referenced row's id. */
module Models {
  import opened Wrappers
  import opened Text
  import opened Ordering
  import opened Query

  type Id = nat
  type Cents = int
  type Day = int
  type Timestamp = int
  type Coordinate = int

  datatype Destination = Destination(
    id: Id, name: string, country: string, description: string,
    latitude: Option<Coordinate>, longitude: Option<Coordinate>)

  datatype Trip = Trip(
    id: Id, owner: Id, title: string, destination: Id,
    startDate: Day, endDate: Day, budget: Cents, isPublic: bool,
    createdAt: Timestamp)

  datatype Tag = Tag(id: Id, owner: Id, name: string)

  /** `tags` holds the names of the tags linked to the activity, one entry per
      linked tag. */
  datatype Activity = Activity(
    id: Id, trip: Id, title: string, date: Day, cost: Cents, notes: string,
    tags: seq<string>)

  datatype PackingItem = PackingItem(id: Id, owner: Id, name: string, category: string)

  datatype TripPackingItem = TripPackingItem(
    id: Id, trip: Id, item: Id, quantity: nat, isPacked: bool, note: string)

  // Field accessors, used where a query names a column.
  function DestinationId(d: Destination): Id { d.id }
  function TripId(t: Trip): Id { t.id }
  function TripOwner(t: Trip): Id { t.owner }
  function TripDestination(t: Trip): Id { t.destination }
  function TagId(t: Tag): Id { t.id }
  function TagOwner(t: Tag): Id { t.owner }
  function ActivityId(a: Activity): Id { a.id }
  function ActivityTrip(a: Activity): Id { a.trip }
  function PackingItemId(p: PackingItem): Id { p.id }
  function PackingItemOwner(p: PackingItem): Id { p.owner }
  function LinkId(l: TripPackingItem): Id { l.id }
  function LinkTrip(l: TripPackingItem): Id { l.trip }
  function LinkItem(l: TripPackingItem): Id { l.item }
  function LinkPacked(l: TripPackingItem): bool { l.isPacked }

  // ---------------------------------------------------------------------
  // Field defaults

  /** A trip saved without a budget or a visibility gets budget 0 and is
      public. */
  function NewTrip(id: Id, owner: Id, title: string, destination: Id,
                   startDate: Day, endDate: Day, createdAt: Timestamp): (t: Trip)
    ensures t.budget == 0 && t.isPublic
    ensures t.id == id && t.owner == owner && t.title == title
    ensures t.destination == destination && t.startDate == startDate
    ensures t.endDate == endDate && t.createdAt == createdAt
  {
    Trip(id, owner, title, destination, startDate, endDate, 0, true, createdAt)
  }

  /** An activity saved without a cost costs 0 and has no notes and no tags. */
  function NewActivity(id: Id, trip: Id, title: string, date: Day): (a: Activity)
    ensures a.cost == 0 && a.notes == [] && a.tags == []
    ensures a.id == id && a.trip == trip && a.title == title && a.date == date
  {
    Activity(id, trip, title, date, 0, [], [])
  }

  /** A packing link saved with only its trip and item has quantity 1, is not
      packed and has no note. */
  function NewLink(id: Id, trip: Id, item: Id): (l: TripPackingItem)
    ensures l.quantity == 1 && !l.isPacked && l.note == []
    ensures l.id == id && l.trip == trip && l.item == item
  {
    TripPackingItem(id, trip, item, 1, false, [])
  }

  // ---------------------------------------------------------------------
  // Text renderings (`__str__`)

  /** "name, country", or just the name when the country is blank. */
  function DestinationStr(d: Destination): (r: string)
    ensures |r| >= |d.name| && r[..|d.name|] == d.name
    ensures d.country == [] ==> r == d.name
    ensures d.country != [] ==> (|r| == |d.name| + 2 + |d.country|
      && r[|d.name|..|d.name| + 2] == ", " && r[|d.name| + 2..] == d.country)
  {
    if d.country != [] then d.name + ", " + d.country else d.name
  }

  /** A trip renders as its title. */
  function TripStr(t: Trip): (r: string)
    ensures r == t.title
  {
    t.title
  }

  /** A tag renders as its name. */
  function TagStr(t: Tag): (r: string)
    ensures r == t.name
  {
    t.name
  }

  /** An activity renders as its title. */
  function ActivityStr(a: Activity): (r: string)
    ensures r == a.title
  {
    a.title
  }

  /** A packing item renders as its name. */
  function PackingItemStr(p: PackingItem): (r: string)
    ensures r == p.name
  {
    p.name
  }

  /** "<trip>: <item>" */
  function TripPackingItemStr(t: Trip, p: PackingItem): (r: string)
    ensures |r| == |t.title| + 2 + |p.name|
    ensures r[..|t.title|] == TripStr(t)
    ensures r[|t.title|..|t.title| + 2] == ": "
    ensures r[|t.title| + 2..] == PackingItemStr(p)
  {
    TripStr(t) + ": " + PackingItemStr(p)
  }

  /** A destination renders as its bare name exactly when its country is blank. */
  lemma DestinationStrIsNameIff(d: Destination)
    ensures DestinationStr(d) == d.name <==> d.country == []
  {
    if d.country != [] {
      assert |DestinationStr(d)| > |d.name|;
    }
  }

  // ---------------------------------------------------------------------
  // Default orderings (`Meta.ordering`)

  /** Trips: newest first (`-created_at`). */
  predicate TripNewestFirst(a: Trip, b: Trip) { a.createdAt >= b.createdAt }

  /** Activities: by date, then by title. */
  predicate ActivityByDateTitle(a: Activity, b: Activity)
  {
    a.date < b.date || (a.date == b.date && StrLe(a.title, b.title))
  }

  predicate TagByName(a: Tag, b: Tag) { StrLe(a.name, b.name) }

  predicate PackingItemByName(a: PackingItem, b: PackingItem) { StrLe(a.name, b.name) }

  /** Packing links come with their item; they are ordered by the item's name. */
  predicate LinkByItemName(a: (TripPackingItem, PackingItem), b: (TripPackingItem, PackingItem))
  {
    StrLe(a.1.name, b.1.name)
  }

  lemma TripNewestFirstIsTotal()
    ensures TotalPreorder(TripNewestFirst)
  {
  }

  lemma ActivityByDateTitleIsTotal()
    ensures TotalPreorder(ActivityByDateTitle)
  {
    forall a: Activity, b: Activity
      ensures ActivityByDateTitle(a, b) || ActivityByDateTitle(b, a)
    {
      StrLeTotal(a.title, b.title);
    }
    forall a: Activity, b: Activity, c: Activity
      | ActivityByDateTitle(a, b) && ActivityByDateTitle(b, c)
      ensures ActivityByDateTitle(a, c)
    {
      if a.date == b.date == c.date {
        StrLeTransitive(a.title, b.title, c.title);
      }
    }
  }

  lemma TagByNameIsTotal()
    ensures TotalPreorder(TagByName)
  {
    forall a: Tag, b: Tag ensures TagByName(a, b) || TagByName(b, a) {
      StrLeTotal(a.name, b.name);
    }
    forall a: Tag, b: Tag, c: Tag | TagByName(a, b) && TagByName(b, c)
      ensures TagByName(a, c)
    {
      StrLeTransitive(a.name, b.name, c.name);
    }
  }

  lemma PackingItemByNameIsTotal()
    ensures TotalPreorder(PackingItemByName)
  {
    forall a: PackingItem, b: PackingItem
      ensures PackingItemByName(a, b) || PackingItemByName(b, a)
    {
      StrLeTotal(a.name, b.name);
    }
    forall a: PackingItem, b: PackingItem, c: PackingItem
      | PackingItemByName(a, b) && PackingItemByName(b, c)
      ensures PackingItemByName(a, c)
    {
      StrLeTransitive(a.name, b.name, c.name);
    }
  }

  lemma LinkByItemNameIsTotal()
    ensures TotalPreorder(LinkByItemName)
  {
    forall a: (TripPackingItem, PackingItem), b: (TripPackingItem, PackingItem)
      ensures LinkByItemName(a, b) || LinkByItemName(b, a)
    {
      StrLeTotal(a.1.name, b.1.name);
    }
    forall a: (TripPackingItem, PackingItem), b: (TripPackingItem, PackingItem),
           c: (TripPackingItem, PackingItem)
      | LinkByItemName(a, b) && LinkByItemName(b, c)
      ensures LinkByItemName(a, c)
    {
      StrLeTransitive(a.1.name, b.1.name, c.1.name);
    }
  }

  /** `Trip.objects.all()`: the trips in their default order. */
  function OrderedTrips(trips: seq<Trip>): (r: seq<Trip>)
    ensures multiset(r) == multiset(trips)
    ensures forall i, j :: 0 <= i < j < |r| ==> r[i].createdAt >= r[j].createdAt
  {
    TripNewestFirstIsTotal();
    SortSorted(trips, TripNewestFirst);
    Sort(trips, TripNewestFirst)
  }

  /** `trip.activities.all()`: the activities by date, then by title. */
  function OrderedActivities(acts: seq<Activity>): (r: seq<Activity>)
    ensures multiset(r) == multiset(acts)
    ensures forall i, j :: 0 <= i < j < |r| ==>
      r[i].date < r[j].date || (r[i].date == r[j].date && StrLe(r[i].title, r[j].title))
  {
    ActivityByDateTitleIsTotal();
    SortSorted(acts, ActivityByDateTitle);
    Sort(acts, ActivityByDateTitle)
  }

  /** Tags in name order. */
  function OrderedTags(tags: seq<Tag>): (r: seq<Tag>)
    ensures multiset(r) == multiset(tags)
    ensures forall i, j :: 0 <= i < j < |r| ==> StrLe(r[i].name, r[j].name)
  {
    TagByNameIsTotal();
    SortSorted(tags, TagByName);
    Sort(tags, TagByName)
  }

  /** Packing items in name order. */
  function OrderedPackingItems(items: seq<PackingItem>): (r: seq<PackingItem>)
    ensures multiset(r) == multiset(items)
    ensures forall i, j :: 0 <= i < j < |r| ==> StrLe(r[i].name, r[j].name)
  {
    PackingItemByNameIsTotal();
    SortSorted(items, PackingItemByName);
    Sort(items, PackingItemByName)
  }

  /** Packing links, each with its item, in the order of the item's name. */
  function OrderedLinks(links: seq<(TripPackingItem, PackingItem)>): (r: seq<(TripPackingItem, PackingItem)>)
    ensures multiset(r) == multiset(links)
    ensures forall i, j :: 0 <= i < j < |r| ==> StrLe(r[i].1.name, r[j].1.name)
  {
    LinkByItemNameIsTotal();
    SortSorted(links, LinkByItemName);
    Sort(links, LinkByItemName)
  }

  // ---------------------------------------------------------------------
  // Uniqueness constraints (`unique_together`)

  predicate TagKeysDiffer(a: Tag, b: Tag) { a.owner != b.owner || a.name != b.name }

  predicate PackingItemKeysDiffer(a: PackingItem, b: PackingItem)
  {
    a.owner != b.owner || a.name != b.name
  }

  predicate LinkKeysDiffer(a: TripPackingItem, b: TripPackingItem)
  {
    a.trip != b.trip || a.item != b.item
  }

  /** No two tags have the same owner and name. */
  ghost predicate TagsUnique(tags: seq<Tag>) { Pairwise(tags, TagKeysDiffer) }

  /** No two packing items have the same owner and name. */
  ghost predicate PackingItemsUnique(items: seq<PackingItem>)
  {
    Pairwise(items, PackingItemKeysDiffer)
  }

  /** No trip holds the same packing item twice. */
  ghost predicate LinksUnique(links: seq<TripPackingItem>) { Pairwise(links, LinkKeysDiffer) }
}
