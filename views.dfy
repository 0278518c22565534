/** The planner's request handlers over the tables: which trips a visitor
    sees, how the trip list reads its query parameters, the owner-only
    guards, the figures of the trip page and of the dashboard, and the
    handlers that tick a packing link or delete rows. */
module Views {
  import opened Wrappers
  import opened Text
  import opened Ordering
  import opened Query
  import opened Grouping
  import opened Models
  import opened Store
  import opened Analytics

  // ---------------------------------------------------------------------
  // Visibility

  /** The visitor of a page: anonymous, or a signed-in user. */
  datatype User = Anonymous | Member(id: Id)

  /** A trip is shown to everyone when it is public, and to its owner. */
  predicate Visible(u: User, t: Trip)
  {
    t.isPublic || (u.Member? && t.owner == u.id)
  }

  /** `_trip_queryset_for_user`: the trips a visitor may look at. */
  function VisibleTrips(u: User, trips: seq<Trip>): (r: seq<Trip>)
    ensures |r| <= |trips|
    ensures u.Anonymous? ==> forall t :: t in r <==> t in trips && t.isPublic
    ensures u.Member? ==> forall t :: t in r <==> t in trips && (t.isPublic || t.owner == u.id)
  {
    Select(trips, t => Visible(u, t), true)
  }

  // ---------------------------------------------------------------------
  // Owner-only guards

  /** Primary keys identify rows: two rows of a table with the same key are
      the same row. */
  lemma {:induction false} SameKeySameRow<T(!new)>(s: seq<T>, ok: (T, T) -> bool, key: T -> Id, x: T, y: T)
    requires Pairwise(s, ok) && forall a, b :: ok(a, b) ==> key(a) != key(b)
    requires x in s && y in s && key(x) == key(y)
    ensures x == y
  {
    var i :| 0 <= i < |s| && s[i] == x;
    var j :| 0 <= j < |s| && s[j] == y;
    if i < j {
      PairwiseAt(s, ok, i, j);
    } else if j < i {
      PairwiseAt(s, ok, j, i);
    }
  }

  /** `get_object_or_404(Trip, pk=pk, owner=request.user)`: the trip `pk`
      when the user owns it, otherwise not found. */
  function OwnedTrip(trips: seq<Trip>, user: Id, pk: Id): (r: Result<Trip, Failure>)
    ensures r.Ok? ==> r.value in trips && r.value.id == pk && r.value.owner == user
    ensures r.Err? <==> forall t :: t in trips && t.id == pk ==> t.owner != user
    ensures r.Err? ==> r.error == NotFound
  {
    match Find(trips, (t: Trip) => (t.id, t.owner), (pk, user))
    case Some(i) => Ok(trips[i])
    case None => Err(NotFound)
  }

  /** The user owns the trip with id `trip`. */
  ghost predicate OwnsTrip(trips: seq<Trip>, user: Id, trip: Id)
  {
    exists t :: t in trips && t.id == trip && t.owner == user
  }

  /** The trip a row belongs to, when that trip is owned by `user`. */
  function TripOwnedBy(trips: seq<Trip>, user: Id, trip: Id): (owned: bool)
    requires Pairwise(trips, TripRowsDiffer)
    ensures owned <==> OwnsTrip(trips, user, trip)
  {
    match Find(trips, TripId, trip)
    case Some(i) =>
      if trips[i].owner == user then true
      else
        assert forall t :: t in trips && t.id == trip ==> t == trips[i] by {
          forall t | t in trips && t.id == trip ensures t == trips[i] {
            SameKeySameRow(trips, TripRowsDiffer, TripId, t, trips[i]);
          }
        }
        false
    case None => false
  }

  /** `get_object_or_404(Activity, pk=pk)` followed by the check that the
      activity's trip belongs to the user (activity_edit, activity_delete). */
  function OwnedActivity(trips: seq<Trip>, acts: seq<Activity>, user: Id, pk: Id): (r: Result<Activity, Failure>)
    requires Pairwise(trips, TripRowsDiffer) && Pairwise(acts, ActivityRowsDiffer)
    ensures r.Ok? ==> r.value in acts && r.value.id == pk && OwnsTrip(trips, user, r.value.trip)
    ensures r.Err? <==> !exists a :: a in acts && a.id == pk && OwnsTrip(trips, user, a.trip)
    ensures r.Err? ==> r.error == NotFound
  {
    match Find(acts, ActivityId, pk)
    case Some(i) =>
      if TripOwnedBy(trips, user, acts[i].trip) then Ok(acts[i])
      else
        assert forall a :: a in acts && a.id == pk ==> a == acts[i] by {
          forall a | a in acts && a.id == pk ensures a == acts[i] {
            SameKeySameRow(acts, ActivityRowsDiffer, ActivityId, a, acts[i]);
          }
        }
        Err(NotFound)
    case None => Err(NotFound)
  }

  /** `get_object_or_404(TripPackingItem, pk=pk)` followed by the check that
      the link's trip belongs to the user (the packing toggles and remove). */
  function OwnedLink(trips: seq<Trip>, links: seq<TripPackingItem>, user: Id, pk: Id): (r: Result<nat, Failure>)
    requires Pairwise(trips, TripRowsDiffer) && Pairwise(links, LinkRowsDiffer)
    ensures r.Ok? ==> r.value < |links| && links[r.value].id == pk
    ensures r.Ok? ==> OwnsTrip(trips, user, links[r.value].trip)
    ensures r.Err? <==> !exists l :: l in links && l.id == pk && OwnsTrip(trips, user, l.trip)
    ensures r.Err? ==> r.error == NotFound
  {
    match Find(links, LinkId, pk)
    case Some(i) =>
      if TripOwnedBy(trips, user, links[i].trip) then Ok(i)
      else
        assert forall l :: l in links && l.id == pk ==> l == links[i] by {
          forall l | l in links && l.id == pk ensures l == links[i] {
            SameKeySameRow(links, LinkRowsDiffer, LinkId, l, links[i]);
          }
        }
        Err(NotFound)
    case None => Err(NotFound)
  }

  // ---------------------------------------------------------------------
  // Query parameters of the trip list

  /** `request.GET.get(name) or fallback`: a missing or empty parameter
      stands for `fallback`. */
  function OrFallback(raw: Option<string>, fallback: string): string
  {
    if raw.Some? && raw.value != [] then raw.value else fallback
  }

  /** `(request.GET.get(name) or fallback).strip()` */
  function Param(raw: Option<string>, fallback: string): string
  {
    Strip(OrFallback(raw, fallback))
  }

  /** The search term is empty, so that no search filter applies, exactly
      when the parameter is missing or all whitespace. */
  lemma SearchTermEmptyIff(raw: Option<string>)
    ensures Param(raw, "") == [] <==> raw.None? || AllSpace(raw.value)
  {
    StripEmptyIff(OrFallback(raw, ""));
  }

  /** A given value without whitespace is read as it is. */
  lemma ParamSpaceFree(s: string)
    requires s != [] && forall k :: 0 <= k < |s| ==> !IsSpace(s[k])
    ensures Param(Some(s), "") == s
  {
    assert OrFallback(Some(s), "") == s;
    StripSpaceFree(s);
  }

  /** What `int()` raises on a string it cannot read. */
  datatype ParamError = ValueError

  /** The destination parameter as written: a stripped value passing
      `str.isdigit()` is handed to `int()`, which fails on digits that are
      not decimal (such as superscripts); anything else is no id. */
  function DestIdAsWritten(raw: Option<string>): (r: Result<Option<nat>, ParamError>)
    ensures r.Err? <==> IsDigits(Param(raw, "")) && !IsDecimal(Param(raw, ""))
    ensures r == Ok(None) <==> !IsDigits(Param(raw, ""))
    ensures r.Ok? && r.value.Some? ==> IsDecimal(Param(raw, ""))
  {
    var s := Param(raw, "");
    if IsDigits(s) then
      if IsDecimal(s) then Ok(Some(ParseDecimal(s))) else Err(ValueError)
    else Ok(None)
  }

  /** A digit that is not decimal (a superscript, subscript or circled digit) passes
      `isdigit()` and then makes `int()` fail. */
  lemma NonDecimalDigitFails(c: char)
    requires IsDigitChar(c) && !IsDecimalChar(c)
    ensures DestIdAsWritten(Some([c])).Err?
  {
    var s := [c];
    ParamSpaceFree(s);
    assert IsDigits(s);
    assert !IsDecimal(s) by {
      assert s[0] == c;
    }
  }

  /** The parameter `dest=²` is such a value. */
  lemma SuperscriptDestFails()
    ensures DestIdAsWritten(Some("\U{B2}")).Err?
  {
    NonDecimalDigitFails('\U{B2}');
  }

  /** So is the parameter `dest=①` (a circled digit one). */
  lemma CircledDestFails()
    ensures DestIdAsWritten(Some("\U{2460}")).Err?
  {
    NonDecimalDigitFails('\U{2460}');
  }

  /** The destination parameter read as intended: a stripped run of decimal
      digits is an id, anything else is no id. */
  function DestId(raw: Option<string>): (r: Option<nat>)
    ensures r.Some? <==> IsDecimal(Param(raw, ""))
  {
    var s := Param(raw, "");
    if IsDecimal(s) then Some(ParseDecimal(s)) else None
  }

  /** Where the code as written reads an id, it reads the intended one; it
      differs only by failing where the intended reading finds no id. */
  lemma DestIdAgrees(raw: Option<string>)
    ensures DestIdAsWritten(raw).Ok? ==> DestIdAsWritten(raw).value == DestId(raw)
    ensures DestIdAsWritten(raw).Err? ==> DestId(raw).None?
  {
  }

  /** Every id written in decimal is read back as itself. */
  lemma DestIdRoundTrip(n: nat)
    ensures DestId(Some(DecimalString(n))) == Some(n)
  {
    ParamSpaceFree(DecimalString(n));
    ParseDecimalString(n);
  }

  /** `if dest_id:` filters only on a non-zero id. */
  predicate DestFilter(destId: Option<nat>, t: Trip)
  {
    destId.None? || destId.value == 0 || t.destination == destId.value
  }

  // ---------------------------------------------------------------------
  // The trip list

  /** The search filter: the term occurs, ignoring case, in the trip's title
      or in its destination's name or country. */
  predicate Matches(dests: seq<Destination>, q: string, t: Trip)
    ensures IContains(t.title, q) ==> Matches(dests, q, t)
    ensures Matches(dests, q, t) ==> IContains(t.title, q) || exists d :: d in dests && d.id == t.destination && DestinationMatches(d, q)
  {
    || IContains(t.title, q)
    || match Find(dests, DestinationId, t.destination)
       case Some(i) => DestinationMatches(dests[i], q)
       case None => false
  }

  /** The term occurs, ignoring case, in the destination's name or country. */
  predicate DestinationMatches(d: Destination, q: string)
  {
    IContains(d.name, q) || IContains(d.country, q)
  }

  /** With unique destination ids, a trip matches exactly when the term is in
      its title or in its destination's name or country (the join of
      `destination__name__icontains` and `destination__country__icontains`). */
  lemma MatchesIff(dests: seq<Destination>, q: string, t: Trip)
    requires Pairwise(dests, DestinationRowsDiffer)
    ensures Matches(dests, q, t) <==>
      IContains(t.title, q) || exists d :: d in dests && d.id == t.destination && DestinationMatches(d, q)
  {
    if d :| d in dests && d.id == t.destination && DestinationMatches(d, q) {
      var i := Find(dests, DestinationId, t.destination).value;
      SameKeySameRow(dests, DestinationRowsDiffer, DestinationId, d, dests[i]);
    }
  }

  /** `order_by('-budget', '-created_at')` */
  predicate TripByBudget(a: Trip, b: Trip)
  {
    a.budget > b.budget || (a.budget == b.budget && a.createdAt >= b.createdAt)
  }

  /** `order_by('start_date', '-created_at')` */
  predicate TripByStart(a: Trip, b: Trip)
  {
    a.startDate < b.startDate || (a.startDate == b.startDate && a.createdAt >= b.createdAt)
  }

  /** `order_by('country', 'name')` */
  predicate DestinationByCountryName(a: Destination, b: Destination)
  {
    (StrLe(a.country, b.country) && a.country != b.country)
    || (a.country == b.country && StrLe(a.name, b.name))
  }

  lemma TripByBudgetIsTotal()
    ensures TotalPreorder(TripByBudget)
  {
  }

  lemma TripByStartIsTotal()
    ensures TotalPreorder(TripByStart)
  {
  }

  lemma DestinationByCountryNameIsTotal()
    ensures TotalPreorder(DestinationByCountryName)
  {
    forall a: Destination, b: Destination
      ensures DestinationByCountryName(a, b) || DestinationByCountryName(b, a)
    {
      StrLeTotal(a.country, b.country);
      StrLeTotal(a.name, b.name);
    }
    forall a: Destination, b: Destination, c: Destination
      | DestinationByCountryName(a, b) && DestinationByCountryName(b, c)
      ensures DestinationByCountryName(a, c)
    {
      if a.country == b.country && b.country == c.country {
        StrLeTransitive(a.name, b.name, c.name);
      } else if a.country != b.country && b.country != c.country {
        StrLeTransitive(a.country, b.country, c.country);
        if a.country == c.country {
          StrLeAntisymmetric(b.country, c.country);
        }
      }
    }
  }

  function TripsByBudget(trips: seq<Trip>): (r: seq<Trip>)
    ensures multiset(r) == multiset(trips)
    ensures forall i, j :: 0 <= i < j < |r| ==> TripByBudget(r[i], r[j])
  {
    TripByBudgetIsTotal();
    SortSorted(trips, TripByBudget);
    Sort(trips, TripByBudget)
  }

  function TripsByStart(trips: seq<Trip>): (r: seq<Trip>)
    ensures multiset(r) == multiset(trips)
    ensures forall i, j :: 0 <= i < j < |r| ==> TripByStart(r[i], r[j])
  {
    TripByStartIsTotal();
    SortSorted(trips, TripByStart);
    Sort(trips, TripByStart)
  }

  function DestinationsByCountryName(dests: seq<Destination>): (r: seq<Destination>)
    ensures multiset(r) == multiset(dests)
    ensures forall i, j :: 0 <= i < j < |r| ==> DestinationByCountryName(r[i], r[j])
  {
    DestinationByCountryNameIsTotal();
    SortSorted(dests, DestinationByCountryName);
    Sort(dests, DestinationByCountryName)
  }

  /** Some listed trip goes to `d`. */
  predicate HasTrip(listed: seq<Trip>, d: Destination)
  {
    Find(listed, TripDestination, d.id).Some?
  }

  lemma HasTripIff(listed: seq<Trip>)
    ensures forall d :: HasTrip(listed, d) <==> exists t :: t in listed && t.destination == d.id
  {
  }

  /** The join filter `trips__in=qs` as a function on destinations. */
  function HasTripIn(listed: seq<Trip>): Destination -> bool
  {
    d => HasTrip(listed, d)
  }

  /** `Destination.objects.filter(trips__in=qs).distinct()
      .order_by('country', 'name')`: the destinations some listed trip goes
      to, each as often as it is in the table (once, by `distinct()`), in
      (country, name) order. */
  function ListedDestinations(dests: seq<Destination>, listed: seq<Trip>): (r: seq<Destination>)
    ensures forall d :: d in r <==> d in dests && exists t :: t in listed && t.destination == d.id
    ensures forall d :: d in r ==> multiset(r)[d] == multiset(dests)[d]
    ensures forall i, j :: 0 <= i < j < |r| ==> DestinationByCountryName(r[i], r[j])
  {
    var shown := Select(dests, HasTripIn(listed), true);
    HasTripIff(listed);
    var r := DestinationsByCountryName(shown);
    SameMembers(r, shown);
    forall d | d in r
      ensures multiset(r)[d] == multiset(dests)[d]
    {
      SelectCount(dests, HasTripIn(listed), true, d);
    }
    r
  }

  /** With unique destination ids, each listed destination is listed once. */
  lemma ListedDestinationsOnce(dests: seq<Destination>, listed: seq<Trip>)
    requires Pairwise(dests, DestinationRowsDiffer)
    ensures var r := ListedDestinations(dests, listed);
      forall i, j :: 0 <= i < j < |r| ==> r[i] != r[j]
  {
    var r := ListedDestinations(dests, listed);
    forall i, j | 0 <= i < j < |r|
      ensures r[i] != r[j]
    {
      PairwiseOnce(dests, DestinationRowsDiffer, r[i]);
      RepeatCounts(r, i, j);
    }
  }

  /** The trips the list shows: visible to the user, matching the search
      term when there is one, and going to the chosen destination when a
      non-zero one is chosen. */
  predicate Listed(u: User, dests: seq<Destination>, q: string, destId: Option<nat>, t: Trip)
  {
    Visible(u, t) && (q == [] || Matches(dests, q, t)) && DestFilter(destId, t)
  }

  /** The filter of the trip list as a function on trips. */
  function ListedBy(u: User, dests: seq<Destination>, q: string, destId: Option<nat>): Trip -> bool
  {
    t => Listed(u, dests, q, destId, t)
  }

  /** The trips the list shows, each once, in table order. */
  function ListedTrips(u: User, trips: seq<Trip>, dests: seq<Destination>, q: string, destId: Option<nat>): (r: seq<Trip>)
    ensures |r| <= |trips|
    ensures forall t :: t in r <==> t in trips && Listed(u, dests, q, destId, t)
  {
    Select(trips, ListedBy(u, dests, q, destId), true)
  }

  lemma SameMembers<T>(a: seq<T>, b: seq<T>)
    requires multiset(a) == multiset(b)
    ensures forall x :: x in a <==> x in b
  {
    forall x ensures x in a <==> x in b {
      assert x in a <==> x in multiset(a);
      assert x in b <==> x in multiset(b);
    }
  }

  /** The filtering steps of `trip_list`: the visible trips, narrowed by
      the search term when there is one and by the destination id when it is
      not zero. */
  method FilterTrips(u: User, trips: seq<Trip>, dests: seq<Destination>, q: string, destId: Option<nat>)
    returns (qs: seq<Trip>)
    ensures qs == ListedTrips(u, trips, dests, q, destId)
    ensures forall t :: t in qs <==> t in trips && Listed(u, dests, q, destId, t)
  {
    var visible := (t: Trip) => Visible(u, t);
    qs := Select(trips, visible, true);
    ghost var kept: Trip -> bool := visible;
    if q != [] {
      var matches := (t: Trip) => Matches(dests, q, t);
      qs := Select(qs, matches, true);
      ghost var both := (t: Trip) => kept(t) && matches(t);
      SelectSelect(trips, kept, matches, both);
      kept := both;
    }
    if destId.Some? && destId.value != 0 {
      var goesTo := (t: Trip) => t.destination == destId.value;
      qs := Select(qs, goesTo, true);
      ghost var both := (t: Trip) => kept(t) && goesTo(t);
      SelectSelect(trips, kept, goesTo, both);
      kept := both;
    }
    SelectPointwise(trips, kept, ListedBy(u, dests, q, destId));
  }

  /** The ordering step of `trip_list`: "new", "budget" and "start" pick
      their orders, and any other value is replaced by "new". */
  method OrderTrips(qs: seq<Trip>, requested: string) returns (ordered: seq<Trip>, sort: string)
    ensures multiset(ordered) == multiset(qs)
    ensures sort == (if requested in {"budget", "start"} then requested else "new")
    ensures sort == "new" ==> forall i, j :: 0 <= i < j < |ordered| ==>
      ordered[i].createdAt >= ordered[j].createdAt
    ensures sort == "budget" ==> forall i, j :: 0 <= i < j < |ordered| ==>
      TripByBudget(ordered[i], ordered[j])
    ensures sort == "start" ==> forall i, j :: 0 <= i < j < |ordered| ==>
      TripByStart(ordered[i], ordered[j])
  {
    sort := requested;
    if sort == "new" {
      ordered := OrderedTrips(qs);
    } else if sort == "budget" {
      ordered := TripsByBudget(qs);
    } else if sort == "start" {
      ordered := TripsByStart(qs);
    } else {
      sort := "new";
      ordered := OrderedTrips(qs);
    }
  }

  /** `trip_list`: the visible trips, narrowed by the search term and by the
      destination id, in the order the sort parameter names (any other value
      falling back to newest first), with the destinations of the listed
      trips in (country, name) order. */
  method TripList(u: User, trips: seq<Trip>, dests: seq<Destination>,
                  qRaw: Option<string>, sortRaw: Option<string>, destRaw: Option<string>)
    returns (listed: seq<Trip>, q: string, sort: string, destinations: seq<Destination>, destId: Option<nat>)
    ensures q == Param(qRaw, "") && destId == DestId(destRaw)
    ensures sort == (if Param(sortRaw, "new") in {"budget", "start"} then Param(sortRaw, "new") else "new")
    ensures multiset(listed) == multiset(ListedTrips(u, trips, dests, q, destId))
    ensures forall t :: t in listed <==> t in trips && Listed(u, dests, q, destId, t)
    ensures sort == "new" ==> forall i, j :: 0 <= i < j < |listed| ==>
      listed[i].createdAt >= listed[j].createdAt
    ensures sort == "budget" ==> forall i, j :: 0 <= i < j < |listed| ==>
      TripByBudget(listed[i], listed[j])
    ensures sort == "start" ==> forall i, j :: 0 <= i < j < |listed| ==>
      TripByStart(listed[i], listed[j])
    ensures destinations == ListedDestinations(dests, listed)
    ensures forall d :: d in destinations <==>
      d in dests && exists t :: t in listed && t.destination == d.id
    ensures forall i, j :: 0 <= i < j < |destinations| ==>
      DestinationByCountryName(destinations[i], destinations[j])
  {
    q := Param(qRaw, "");
    destId := DestId(destRaw);
    var qs := FilterTrips(u, trips, dests, q, destId);
    listed, sort := OrderTrips(qs, Param(sortRaw, "new"));
    SameMembers(listed, qs);
    destinations := ListedDestinations(dests, listed);
  }

  // ---------------------------------------------------------------------
  // The weather table of the trip page

  /** The `daily` part of a forecast; any of its arrays may be missing. */
  datatype Daily = Daily(
    time: Option<seq<string>>, tmax: Option<seq<real>>,
    tmin: Option<seq<real>>, pop: Option<seq<real>>)

  /** What the forecast service answers. */
  datatype WeatherResult = WeatherResult(ok: bool, summary: string, daily: Option<Daily>)

  datatype WeatherRow = WeatherRow(date: string, tmax: real, tmin: real, pop: real)

  // `daily.get(key) or []`: a missing array reads as an empty one.
  function Times(w: WeatherResult): seq<string>
  {
    if w.daily.Some? && w.daily.value.time.Some? then w.daily.value.time.value else []
  }

  function TMax(w: WeatherResult): seq<real>
  {
    if w.daily.Some? && w.daily.value.tmax.Some? then w.daily.value.tmax.value else []
  }

  function TMin(w: WeatherResult): seq<real>
  {
    if w.daily.Some? && w.daily.value.tmin.Some? then w.daily.value.tmin.value else []
  }

  function Pop(w: WeatherResult): seq<real>
  {
    if w.daily.Some? && w.daily.value.pop.Some? then w.daily.value.pop.value else []
  }

  function Min(a: nat, b: nat): nat { if a <= b then a else b }

  /** A forecast is asked for only when the destination has both
      coordinates; `fetched` stands for what the service answers. */
  function ForecastFor(d: Destination, fetched: WeatherResult): (r: Option<WeatherResult>)
    ensures r.Some? <==> d.latitude.Some? && d.longitude.Some?
    ensures r.Some? ==> r.value == fetched
  {
    if d.latitude.Some? && d.longitude.Some? then Some(fetched) else None
  }

  /** The weather table of a forecast: nothing unless the forecast is there
      and successful; otherwise one row per day for as many days as every
      array covers, at most seven, row `i` taking entry `i` of each array. */
  predicate WeatherTable(forecast: Option<WeatherResult>, rows: seq<WeatherRow>)
  {
    if forecast.Some? && forecast.value.ok then
      var w := forecast.value;
      && |rows| <= 7 && |rows| <= |Times(w)| && |rows| <= |TMax(w)|
      && |rows| <= |TMin(w)| && |rows| <= |Pop(w)|
      && (|rows| == 7 || |rows| == |Times(w)| || |rows| == |TMax(w)|
          || |rows| == |TMin(w)| || |rows| == |Pop(w)|)
      && forall i :: 0 <= i < |rows| ==>
           rows[i] == WeatherRow(Times(w)[i], TMax(w)[i], TMin(w)[i], Pop(w)[i])
    else rows == []
  }

  /** `weather_rows`, built by the loop of the view. */
  method WeatherRows(forecast: Option<WeatherResult>) returns (rows: seq<WeatherRow>)
    ensures WeatherTable(forecast, rows)
  {
    rows := [];
    if forecast.Some? && forecast.value.ok {
      var w := forecast.value;
      var times, tmax, tmin, pop := Times(w), TMax(w), TMin(w), Pop(w);
      var n := Min(Min(Min(Min(|times|, |tmax|), |tmin|), |pop|), 7);
      var i := 0;
      while i < n
        invariant 0 <= i <= n
        invariant |rows| == i
        invariant forall k :: 0 <= k < i ==> rows[k] == WeatherRow(times[k], tmax[k], tmin[k], pop[k])
      {
        rows := rows + [WeatherRow(times[i], tmax[i], tmin[i], pop[i])];
        i := i + 1;
      }
    }
  }

  // ---------------------------------------------------------------------
  // The trip page

  /** What the trip page shows. */
  datatype Detail = Detail(
    trip: Trip, activities: seq<Activity>, spending: Spending,
    forecast: Option<WeatherResult>, weatherRows: seq<WeatherRow>,
    packingLinks: seq<TripPackingItem>, packing: Packing)

  /** The destination a trip goes to, when it is in the table. */
  function DestinationOf(dests: seq<Destination>, t: Trip): (r: Option<Destination>)
    requires Pairwise(dests, DestinationRowsDiffer)
    ensures r.Some? ==> r.value in dests && r.value.id == t.destination
    ensures r.None? <==> forall d :: d in dests ==> d.id != t.destination
    ensures forall d :: d in dests && d.id == t.destination ==> r == Some(d)
  {
    match Find(dests, DestinationId, t.destination)
    case Some(i) =>
      assert forall d :: d in dests && d.id == t.destination ==> d == dests[i] by {
        forall d | d in dests && d.id == t.destination ensures d == dests[i] {
          SameKeySameRow(dests, DestinationRowsDiffer, DestinationId, d, dests[i]);
        }
      }
      Some(dests[i])
    case None => None
  }

  /** `get_object_or_404(_trip_queryset_for_user(user), pk=pk)` */
  function VisibleTrip(u: User, trips: seq<Trip>, pk: Id): (r: Result<Trip, Failure>)
    ensures r.Ok? ==> r.value in trips && r.value.id == pk && Visible(u, r.value)
    ensures r.Err? <==> !exists t :: t in trips && t.id == pk && Visible(u, t)
    ensures r.Err? ==> r.error == NotFound
  {
    var visible := VisibleTrips(u, trips);
    match Find(visible, TripId, pk)
    case Some(i) => Ok(visible[i])
    case None => Err(NotFound)
  }

  /** The forecast for a trip: asked for only when its destination has both
      coordinates. */
  function TripForecast(dests: seq<Destination>, t: Trip, fetched: WeatherResult): (r: Option<WeatherResult>)
    requires Pairwise(dests, DestinationRowsDiffer)
    ensures r.Some? <==> exists d :: d in dests && d.id == t.destination && d.latitude.Some? && d.longitude.Some?
    ensures r.Some? ==> r.value == fetched
  {
    match DestinationOf(dests, t)
    case Some(d) => ForecastFor(d, fetched)
    case None => None
  }

  /** `trip_detail`: not found unless the trip is visible to the user;
      otherwise its activities in their default order with the spending
      figures computed from them, the weather table of its destination and
      the progress of its packing list. `fetched` stands for the forecast
      service's answer. */
  method TripDetail(u: User, trips: seq<Trip>, dests: seq<Destination>, acts: seq<Activity>,
                    links: seq<TripPackingItem>, pk: Id, fetched: WeatherResult)
    returns (r: Result<Detail, Failure>)
    requires Pairwise(dests, DestinationRowsDiffer)
    ensures r.Err? <==> !exists t :: t in trips && t.id == pk && Visible(u, t)
    ensures r.Err? ==> r.error == NotFound
    ensures r.Ok? ==> r.value.trip in trips && r.value.trip.id == pk && Visible(u, r.value.trip)
    ensures r.Ok? ==> multiset(r.value.activities) == multiset(Select(acts, ActivityTrip, pk))
    ensures r.Ok? ==> forall a :: a in r.value.activities <==> a in acts && a.trip == pk
    ensures r.Ok? ==> forall i, j :: 0 <= i < j < |r.value.activities| ==>
      ActivityByDateTitle(r.value.activities[i], r.value.activities[j])
    ensures r.Ok? ==> r.value.spending == SpendingOf(r.value.trip.budget, r.value.activities)
    ensures r.Ok? ==> r.value.spending.totalCost == TotalCost(Select(acts, ActivityTrip, pk))
    ensures r.Ok? ==> r.value.forecast == TripForecast(dests, r.value.trip, fetched)
    ensures r.Ok? ==> WeatherTable(r.value.forecast, r.value.weatherRows)
    ensures r.Ok? ==> r.value.packingLinks == Select(links, LinkTrip, pk)
    ensures r.Ok? ==> forall l :: l in r.value.packingLinks <==> l in links && l.trip == pk
    ensures r.Ok? ==> r.value.packing == PackingOf(r.value.packingLinks)
  {
    var found := VisibleTrip(u, trips, pk);
    if found.Err? {
      return Err(NotFound);
    }
    var trip := found.value;

    var selected := Select(acts, ActivityTrip, pk);
    var activities := OrderedActivities(selected);
    SameMembers(activities, selected);
    TotalCostPermutation(activities, selected);

    var forecast := TripForecast(dests, trip, fetched);
    var weatherRows := WeatherRows(forecast);

    var packingLinks := Select(links, LinkTrip, pk);
    r := Ok(Detail(trip, activities, SpendingOf(trip.budget, activities),
                   forecast, weatherRows, packingLinks, PackingOf(packingLinks)));
  }

  // ---------------------------------------------------------------------
  // The dashboard

  /** The trips of one owner (`Trip.objects.filter(owner=user)`). */
  function OwnedTrips(user: Id, trips: seq<Trip>): (r: seq<Trip>)
    ensures |r| <= |trips|
    ensures forall t :: t in r <==> t in trips && t.owner == user
  {
    Select(trips, TripOwner, user)
  }

  predicate TripIsPublic(t: Trip) { t.isPublic }
  predicate TripIsPrivate(t: Trip) { !t.isPublic }

  function BudgetTotal(trips: seq<Trip>): Cents
  {
    if trips == [] then 0 else trips[0].budget + BudgetTotal(trips[1..])
  }

  /** `trip_stats`; a sum over no rows is missing, as in SQL. */
  datatype TripStats = TripStats(tripsTotal: nat, publicTotal: nat, privateTotal: nat, totalBudget: Option<Cents>)

  /** The counts of the given trips, public and private, and their budget sum. */
  function TripStatsOf(owned: seq<Trip>): (s: TripStats)
    ensures s.tripsTotal == |owned|
    ensures s.publicTotal + s.privateTotal == s.tripsTotal
    ensures s.publicTotal == CountWhere(owned, TripIsPublic)
    ensures s.publicTotal == 0 <==> forall t :: t in owned ==> !t.isPublic
    ensures s.privateTotal == 0 <==> forall t :: t in owned ==> t.isPublic
    ensures s.totalBudget.None? <==> owned == []
    ensures s.totalBudget.Some? ==> s.totalBudget.value == BudgetTotal(owned)
  {
    CountWhereComplement(owned, TripIsPublic, TripIsPrivate);
    TripStats(|owned|, CountWhere(owned, TripIsPublic), CountWhere(owned, TripIsPrivate),
              if owned == [] then None else Some(BudgetTotal(owned)))
  }

  /** The activities of the given trips (`filter(trip__owner=user)` once the
      trips are the user's). */
  function ActivitiesOf(owned: seq<Trip>, acts: seq<Activity>): (r: seq<Activity>)
    ensures forall a :: a in r <==> a in acts && exists t :: t in owned && t.id == a.trip
  {
    Select(acts, (a: Activity) => Find(owned, TripId, a.trip).Some?, true)
  }

  /** `activity_stats`: the spending on the activities, missing when there
      are none. */
  function TotalSpent(spent: seq<Activity>): (r: Option<Cents>)
    ensures r.None? <==> spent == []
    ensures r.Some? ==> r.value == TotalCost(spent)
  {
    if spent == [] then None else Some(TotalCost(spent))
  }

  /** One row per trip: the (name, country) of its destination and its
      budget, the rows `values('destination__name', 'destination__country')`
      groups. */
  function DestinationRows(owned: seq<Trip>, dests: seq<Destination>): (rows: seq<Row<(string, string)>>)
    ensures |rows| <= |owned|
    ensures (forall t :: t in owned ==> exists d :: d in dests && d.id == t.destination) ==> |rows| == |owned|
    ensures forall r :: r in rows ==> exists t, d ::
      t in owned && d in dests && d.id == t.destination && r == ((d.name, d.country), t.budget)
    ensures (forall t :: t in owned ==> exists d :: d in dests && d.id == t.destination) ==>
      forall i :: 0 <= i < |owned| ==>
        exists d :: d in dests && d.id == owned[i].destination && rows[i] == ((d.name, d.country), owned[i].budget)
  {
    if owned == [] then []
    else
      var rest := DestinationRows(owned[1..], dests);
      match Find(dests, DestinationId, owned[0].destination)
      case Some(i) => [((dests[i].name, dests[i].country), owned[0].budget)] + rest
      case None => rest
  }

  /** `order_by('-trips_count', '-budget_sum')` */
  predicate MoreTripsThenBudget<K>(a: Bucket<K>, b: Bucket<K>)
  {
    a.uses > b.uses || (a.uses == b.uses && a.total >= b.total)
  }

  lemma MoreTripsThenBudgetIsTotal<K(!new)>()
    ensures TotalPreorder(MoreTripsThenBudget<K>)
  {
  }

  /** The destinations of the rows grouped by (name, country), each with its
      number of trips and their budget sum, most trips first and, among
      equals, the largest budget first. */
  function DestinationRanking(rows: seq<Row<(string, string)>>): (r: seq<Bucket<(string, string)>>)
    ensures DistinctKeys(r) && Keys(r) == RowKeys(rows)
    ensures forall i :: 0 <= i < |r| ==>
      r[i].uses == RowCount(rows, r[i].key) && r[i].total == RowSum(rows, r[i].key)
    ensures forall i, j :: 0 <= i < j < |r| ==> MoreTripsThenBudget(r[i], r[j])
  {
    var grouped := Group(rows);
    SortBuckets(grouped, MoreTripsThenBudget);
    MoreTripsThenBudgetIsTotal<(string, string)>();
    SortSorted(grouped, MoreTripsThenBudget);
    var r := Sort(grouped, MoreTripsThenBudget);
    forall i | 0 <= i < |r|
      ensures r[i].uses == RowCount(rows, r[i].key) && r[i].total == RowSum(rows, r[i].key)
    {
      LookupOwnKey(r, i);
    }
    r
  }

  /** What the dashboard shows. */
  datatype Dashboard = Dashboard(
    tripStats: TripStats, totalSpent: Option<Cents>,
    topDestinations: seq<Bucket<(string, string)>>,
    topTags: seq<Bucket<Option<string>>>)

  /** `dashboard`: the statistics of the user's trips, the spending on their
      activities, and the first five of the destination and tag rankings. */
  function DashboardOf(user: Id, trips: seq<Trip>, dests: seq<Destination>, acts: seq<Activity>): (d: Dashboard)
    ensures d.tripStats == TripStatsOf(OwnedTrips(user, trips))
    ensures d.totalSpent == TotalSpent(ActivitiesOf(OwnedTrips(user, trips), acts))
    ensures d.topDestinations == Take(DestinationRanking(DestinationRows(OwnedTrips(user, trips), dests)), 5)
    ensures d.topTags == Take(ByTag(ActivitiesOf(OwnedTrips(user, trips), acts)), 5)
  {
    var owned := OwnedTrips(user, trips);
    var spent := ActivitiesOf(owned, acts);
    Dashboard(TripStatsOf(owned), TotalSpent(spent),
              Take(DestinationRanking(DestinationRows(owned, dests)), 5),
              Take(ByTag(spent), 5))
  }

  /** The dashboard's spending is missing exactly when none of the user's
      trips has an activity. */
  lemma DashboardSpentIff(user: Id, trips: seq<Trip>, dests: seq<Destination>, acts: seq<Activity>)
    ensures DashboardOf(user, trips, dests, acts).totalSpent.None?
       <==> !exists a, t :: a in acts && t in trips && t.owner == user && t.id == a.trip
  {
    var owned := OwnedTrips(user, trips);
    var spent := ActivitiesOf(owned, acts);
    if spent != [] {
      assert spent[0] in spent;
    }
  }

  /** At most five destinations are listed, and each ranks no lower than
      any left off the list. */
  lemma DashboardDestinationLeaders(user: Id, trips: seq<Trip>, dests: seq<Destination>, acts: seq<Activity>)
    ensures var top := DashboardOf(user, trips, dests, acts).topDestinations;
      var ranking := DestinationRanking(DestinationRows(OwnedTrips(user, trips), dests));
      && |top| <= 5
      && forall i, j :: 0 <= i < |top| <= j < |ranking| ==> MoreTripsThenBudget(top[i], ranking[j])
  {
    var ranking := DestinationRanking(DestinationRows(OwnedTrips(user, trips), dests));
    TakeLeads(ranking, 5, MoreTripsThenBudget);
  }

  /** At most five tags are listed, and each has spent no less than any
      left off the list. */
  lemma DashboardTagLeaders(user: Id, trips: seq<Trip>, dests: seq<Destination>, acts: seq<Activity>)
    ensures var top := DashboardOf(user, trips, dests, acts).topTags;
      var tags := ByTag(ActivitiesOf(OwnedTrips(user, trips), acts));
      && |top| <= 5
      && forall i, j :: 0 <= i < |top| <= j < |tags| ==> top[i].total >= tags[j].total
  {
    var tags := ByTag(ActivitiesOf(OwnedTrips(user, trips), acts));
    TakeLeads(tags, 5, TotalDescending);
  }

  // ---------------------------------------------------------------------
  // Handlers that change the tables

  /** The link `pk` is at position `i` of `before`, and `after` differs
      from `before` only in that link's packed flag, which is flipped. */
  ghost predicate Flipped(before: seq<TripPackingItem>, after: seq<TripPackingItem>, i: nat, pk: Id)
  {
    && i < |before| && before[i].id == pk
    && after == before[i := before[i].(isPacked := !before[i].isPacked)]
  }

  /** The user may change the link `pk`: it exists and its trip is theirs. */
  ghost predicate MayChangeLink(trips: seq<Trip>, links: seq<TripPackingItem>, user: Id, pk: Id)
  {
    exists l :: l in links && l.id == pk && OwnsTrip(trips, user, l.trip)
  }

  /** `trip_packing_toggle`: not found unless the link exists and its trip
      belongs to the user; otherwise exactly that link's packed flag is
      flipped and the trip to return to is answered. */
  method TogglePacked(db: Database, user: Id, pk: Id) returns (r: Result<Id, Failure>)
    requires db.Valid()
    modifies db
    ensures db.Valid()
    ensures r.Err? <==> !MayChangeLink(old(db.trips), old(db.links), user, pk)
    ensures r.Err? ==> r.error == NotFound && db.links == old(db.links)
    ensures r.Ok? ==> exists i: nat :: Flipped(old(db.links), db.links, i, pk) && r.value == db.links[i].trip
    ensures db.destinations == old(db.destinations) && db.trips == old(db.trips)
    ensures db.tags == old(db.tags) && db.activities == old(db.activities) && db.items == old(db.items)
  {
    var guard := OwnedLink(db.trips, db.links, user, pk);
    if guard.Err? {
      return Err(NotFound);
    }
    var i := guard.value;
    db.SavePacked(i, !db.links[i].isPacked);
    assert Flipped(old(db.links), db.links, i, pk);
    r := Ok(db.links[i].trip);
  }

  /** The answer of the toggle API. */
  datatype ToggleReply = ToggleReply(ok: bool, isPacked: bool, packedCount: nat, totalCount: nat)

  /** `trip_packing_toggle_api`: the same change as the toggle, answered
      with the link's new flag and the packed and total counts of its
      trip's list, the packed count having moved by one. */
  method TogglePackedApi(db: Database, user: Id, pk: Id) returns (r: Result<ToggleReply, Failure>)
    requires db.Valid()
    modifies db
    ensures db.Valid()
    ensures r.Err? <==> !MayChangeLink(old(db.trips), old(db.links), user, pk)
    ensures r.Err? ==> r.error == NotFound && db.links == old(db.links)
    ensures r.Ok? ==> exists i: nat :: (Flipped(old(db.links), db.links, i, pk)
      && var trip := db.links[i].trip;
      && r.value.ok
      && r.value.isPacked == db.links[i].isPacked
      && r.value.packedCount == CountWhere(Select(db.links, LinkTrip, trip), LinkPacked)
      && r.value.totalCount == |Select(db.links, LinkTrip, trip)|
      && r.value.totalCount == |Select(old(db.links), LinkTrip, trip)|
      && r.value.packedCount + (if r.value.isPacked then 0 else 1)
         == CountWhere(Select(old(db.links), LinkTrip, trip), LinkPacked) + (if r.value.isPacked then 1 else 0))
    ensures r.Ok? ==> r.value.packedCount <= r.value.totalCount
    ensures db.destinations == old(db.destinations) && db.trips == old(db.trips)
    ensures db.tags == old(db.tags) && db.activities == old(db.activities) && db.items == old(db.items)
  {
    var guard := OwnedLink(db.trips, db.links, user, pk);
    if guard.Err? {
      return Err(NotFound);
    }
    var i := guard.value;
    ghost var before := db.links;
    db.SavePacked(i, !db.links[i].isPacked);
    var trip := db.links[i].trip;
    var inTrip := Select(db.links, LinkTrip, trip);
    SelectUpdate(before, LinkTrip, trip, LinkPacked, i, db.links[i]);
    assert Flipped(before, db.links, i, pk);
    r := Ok(ToggleReply(true, db.links[i].isPacked, CountWhere(inTrip, LinkPacked), |inTrip|));
  }

  /** `trip_delete`: not found unless the user owns the trip; otherwise the
      trip goes, and its activities and packing links with it. */
  method TripDelete(db: Database, user: Id, pk: Id) returns (r: Result<(), Failure>)
    requires db.Valid()
    modifies db
    ensures db.Valid()
    ensures r.Err? <==> forall t :: t in old(db.trips) && t.id == pk ==> t.owner != user
    ensures r.Err? ==> r.error == NotFound
    ensures r.Err? ==> db.trips == old(db.trips) && db.activities == old(db.activities)
    ensures r.Err? ==> db.links == old(db.links)
    ensures r.Ok? ==> db.trips == Exclude(old(db.trips), TripId, pk)
    ensures r.Ok? ==> db.activities == Exclude(old(db.activities), ActivityTrip, pk)
    ensures r.Ok? ==> db.links == Exclude(old(db.links), LinkTrip, pk)
    ensures db.destinations == old(db.destinations) && db.tags == old(db.tags) && db.items == old(db.items)
  {
    var guard := OwnedTrip(db.trips, user, pk);
    if guard.Err? {
      return Err(NotFound);
    }
    db.DeleteTrip(pk);
    r := Ok(());
  }

  /** `activity_delete`: not found unless the activity exists and its trip
      belongs to the user; otherwise only that activity goes. */
  method ActivityDelete(db: Database, user: Id, pk: Id) returns (r: Result<(), Failure>)
    requires db.Valid()
    modifies db
    ensures db.Valid()
    ensures r.Err? <==> !exists a :: a in old(db.activities) && a.id == pk && OwnsTrip(old(db.trips), user, a.trip)
    ensures r.Err? ==> r.error == NotFound && db.activities == old(db.activities)
    ensures r.Ok? ==> db.activities == Exclude(old(db.activities), ActivityId, pk)
    ensures db.destinations == old(db.destinations) && db.trips == old(db.trips)
    ensures db.tags == old(db.tags) && db.items == old(db.items) && db.links == old(db.links)
  {
    var guard := OwnedActivity(db.trips, db.activities, user, pk);
    if guard.Err? {
      return Err(NotFound);
    }
    db.DeleteActivity(pk);
    r := Ok(());
  }

  /** `trip_packing_remove`: not found unless the link exists and its trip
      belongs to the user; otherwise only that link goes. */
  method PackingRemove(db: Database, user: Id, pk: Id) returns (r: Result<Id, Failure>)
    requires db.Valid()
    modifies db
    ensures db.Valid()
    ensures r.Err? <==> !MayChangeLink(old(db.trips), old(db.links), user, pk)
    ensures r.Err? ==> r.error == NotFound && db.links == old(db.links)
    ensures r.Ok? ==> db.links == Exclude(old(db.links), LinkId, pk)
    ensures r.Ok? ==> exists l :: l in old(db.links) && l.id == pk && l.trip == r.value
    ensures db.destinations == old(db.destinations) && db.trips == old(db.trips)
    ensures db.tags == old(db.tags) && db.activities == old(db.activities) && db.items == old(db.items)
  {
    var guard := OwnedLink(db.trips, db.links, user, pk);
    if guard.Err? {
      return Err(NotFound);
    }
    var tripPk := db.links[guard.value].trip;
    assert db.links[guard.value] in db.links;
    db.DeleteLink(pk);
    r := Ok(tripPk);
  }
}
