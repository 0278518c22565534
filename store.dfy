/** The planner's tables as one database, with the constraints the records
    declare (primary keys, `unique_together`, foreign keys) as its invariant,
    and the effect of deleting a row under each foreign key's `on_delete`
    rule. */
module Store {
  import opened Wrappers
  import opened Models
  import opened Query

  /** What a request can fail with: `Http404`, or `ProtectedError` when a
      delete would leave a trip without its destination. */
  datatype Failure = NotFound | Protected

  // Two rows of one table may coexist: their primary keys differ and so do
  // their `unique_together` keys.
  predicate DestinationRowsDiffer(a: Destination, b: Destination) { a.id != b.id }
  predicate TripRowsDiffer(a: Trip, b: Trip) { a.id != b.id }
  predicate TagRowsDiffer(a: Tag, b: Tag) { a.id != b.id && TagKeysDiffer(a, b) }
  predicate ActivityRowsDiffer(a: Activity, b: Activity) { a.id != b.id }
  predicate PackingItemRowsDiffer(a: PackingItem, b: PackingItem)
  {
    a.id != b.id && PackingItemKeysDiffer(a, b)
  }
  predicate LinkRowsDiffer(a: TripPackingItem, b: TripPackingItem)
  {
    a.id != b.id && LinkKeysDiffer(a, b)
  }

  ghost function IdSet<T>(s: seq<T>, id: T -> Id): set<Id>
  {
    set x | x in s :: id(x)
  }

  class Database {
    var destinations: seq<Destination>
    var trips: seq<Trip>
    var tags: seq<Tag>
    var activities: seq<Activity>
    var items: seq<PackingItem>
    var links: seq<TripPackingItem>

    /** Keys are unique and every foreign key names an existing row. */
    ghost predicate Valid()
      reads this
      ensures Valid() ==> forall t :: t in trips ==> exists d :: d in destinations && d.id == t.destination
      ensures Valid() ==> forall a :: a in activities ==> exists t :: t in trips && t.id == a.trip
      ensures Valid() ==> forall l :: l in links ==>
        (exists t :: t in trips && t.id == l.trip) && (exists p :: p in items && p.id == l.item)
    {
      && Pairwise(destinations, DestinationRowsDiffer)
      && Pairwise(trips, TripRowsDiffer)
      && Pairwise(tags, TagRowsDiffer)
      && Pairwise(activities, ActivityRowsDiffer)
      && Pairwise(items, PackingItemRowsDiffer)
      && Pairwise(links, LinkRowsDiffer)
      && (forall t :: t in trips ==> t.destination in IdSet(destinations, DestinationId))
      && (forall a :: a in activities ==> a.trip in IdSet(trips, TripId))
      && (forall l :: l in links ==> l.trip in IdSet(trips, TripId))
      && (forall l :: l in links ==> l.item in IdSet(items, PackingItemId))
    }

    constructor ()
      ensures Valid()
      ensures destinations == [] && trips == [] && tags == []
      ensures activities == [] && items == [] && links == []
    {
      destinations, trips, tags := [], [], [];
      activities, items, links := [], [], [];
    }

    /** `trip.delete()`: the trip goes, and with it (`CASCADE`) its activities
        and its packing links. */
    method DeleteTrip(pk: Id)
      requires Valid()
      modifies this
      ensures Valid()
      ensures trips == Exclude(old(trips), TripId, pk)
      ensures activities == Exclude(old(activities), ActivityTrip, pk)
      ensures links == Exclude(old(links), LinkTrip, pk)
      ensures destinations == old(destinations) && tags == old(tags) && items == old(items)
    {
      PairwiseExclude(trips, TripRowsDiffer, TripId, pk);
      PairwiseExclude(activities, ActivityRowsDiffer, ActivityTrip, pk);
      PairwiseExclude(links, LinkRowsDiffer, LinkTrip, pk);
      ghost var oldTrips := trips;
      trips := Exclude(trips, TripId, pk);
      activities := Exclude(activities, ActivityTrip, pk);
      links := Exclude(links, LinkTrip, pk);
      forall a | a in activities ensures a.trip in IdSet(trips, TripId) {
        var t :| t in oldTrips && t.id == a.trip;
        assert t in trips;
      }
      forall l | l in links ensures l.trip in IdSet(trips, TripId) {
        var t :| t in oldTrips && t.id == l.trip;
        assert t in trips;
      }
    }

    /** `destination.delete()`: refused (`PROTECT`) while a trip refers to the
        destination. */
    method DeleteDestination(pk: Id) returns (r: Result<(), Failure>)
      requires Valid()
      modifies this
      ensures Valid()
      ensures r.Err? <==> exists t :: t in old(trips) && t.destination == pk
      ensures r.Err? ==> r.error == Protected && destinations == old(destinations)
      ensures r.Ok? ==> destinations == Exclude(old(destinations), DestinationId, pk)
      ensures trips == old(trips) && tags == old(tags) && activities == old(activities)
      ensures items == old(items) && links == old(links)
    {
      if Find(trips, TripDestination, pk).Some? {
        var i := Find(trips, TripDestination, pk).value;
        assert trips[i] in trips;
        return Err(Protected);
      }
      PairwiseExclude(destinations, DestinationRowsDiffer, DestinationId, pk);
      ghost var oldDestinations := destinations;
      destinations := Exclude(destinations, DestinationId, pk);
      forall t | t in trips ensures t.destination in IdSet(destinations, DestinationId) {
        var d :| d in oldDestinations && d.id == t.destination;
        assert d in destinations;
      }
      return Ok(());
    }

    /** `item.delete()`: the catalogue item goes, and with it (`CASCADE`) every
        packing link to it. */
    method DeletePackingItem(pk: Id)
      requires Valid()
      modifies this
      ensures Valid()
      ensures items == Exclude(old(items), PackingItemId, pk)
      ensures links == Exclude(old(links), LinkItem, pk)
      ensures destinations == old(destinations) && trips == old(trips)
      ensures tags == old(tags) && activities == old(activities)
    {
      PairwiseExclude(items, PackingItemRowsDiffer, PackingItemId, pk);
      PairwiseExclude(links, LinkRowsDiffer, LinkItem, pk);
      ghost var oldItems := items;
      items := Exclude(items, PackingItemId, pk);
      links := Exclude(links, LinkItem, pk);
      forall l | l in links ensures l.item in IdSet(items, PackingItemId) {
        var p :| p in oldItems && p.id == l.item;
        assert p in items;
      }
    }

    /** `activity.delete()` */
    method DeleteActivity(pk: Id)
      requires Valid()
      modifies this
      ensures Valid()
      ensures activities == Exclude(old(activities), ActivityId, pk)
      ensures destinations == old(destinations) && trips == old(trips)
      ensures tags == old(tags) && items == old(items) && links == old(links)
    {
      PairwiseExclude(activities, ActivityRowsDiffer, ActivityId, pk);
      activities := Exclude(activities, ActivityId, pk);
    }

    /** `link.delete()` */
    method DeleteLink(pk: Id)
      requires Valid()
      modifies this
      ensures Valid()
      ensures links == Exclude(old(links), LinkId, pk)
      ensures destinations == old(destinations) && trips == old(trips)
      ensures tags == old(tags) && activities == old(activities) && items == old(items)
    {
      PairwiseExclude(links, LinkRowsDiffer, LinkId, pk);
      links := Exclude(links, LinkId, pk);
    }

    /** `link.save(update_fields=['is_packed'])` for the link at position `i`:
        only that row's packed flag is written. */
    method SavePacked(i: nat, packed: bool)
      requires Valid() && i < |links|
      modifies this
      ensures Valid()
      ensures links == old(links)[i := old(links)[i].(isPacked := packed)]
      ensures destinations == old(destinations) && trips == old(trips)
      ensures tags == old(tags) && activities == old(activities) && items == old(items)
    {
      var updated := links[i].(isPacked := packed);
      PairwiseReplace(links, LinkRowsDiffer, i, updated);
      ghost var oldLinks := links;
      links := links[i := updated];
      forall l | l in links
        ensures l.trip in IdSet(trips, TripId) && l.item in IdSet(items, PackingItemId)
      {
        if l != updated {
          var j :| 0 <= j < |links| && links[j] == l;
          assert oldLinks[j] == l;
        } else {
          assert oldLinks[i] in oldLinks;
        }
      }
    }
  }
}
