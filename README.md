# Trip planner: a verified model of its forms, views and records

The trip planner is a Django application. Users plan trips to
destinations, record the activities of each trip with their costs and tags,
and keep a per-trip packing list drawn from their own catalogue of packing
items. This project models its core in Dafny:

- the records (`planner/models.py`): the field defaults, the `__str__`
  renderings, the default orderings (`Meta.ordering`), the `unique_together`
  constraints and the `on_delete` rules. The tables are held in one class
  `Store.Database` whose invariant `Valid()` states unique keys and
  referential integrity. Each delete keeps that invariant;
- the form hooks (`planner/forms.py`): each `clean` hook is a function
  returning the cleaned value or the error it raises. The `__init__`
  narrowing of the tag and packing-item choices to the owner's rows is a
  class constructor;
- the views (`planner/views.py`):
  - which trips a visitor may see;
  - how the trip list reads and applies its `q`, `sort` and `dest`
    parameters;
  - the figures of the trip page: totals, spending by day and by tag,
    percentages, the most expensive activity and day, the weather table and
    packing progress;
  - the dashboard's statistics and rankings;
  - the owner-only guards;
  - the handlers that tick or remove a packing link or delete a trip or an
    activity.

Money is held in cents, dates in day numbers and coordinates in units of
1e-5 degree. A foreign key is the referenced row's id. A queryset is a
sequence of rows. `filter`, `exclude`, `get`, `count` and slicing are the
functions of module `Query`. `values(...).annotate(Sum, Count)` is `Group`
in module `Grouping`, and `order_by` is a stable insertion sort (module
`Ordering`) under a comparator proved to be a total preorder. The forecast
service's answer is a parameter of the trip page.

Modules, one per file: `Wrappers` (Option, Result), `Text` (strip, digits,
case folding, string order), `Query`, `Ordering`, `Grouping`, `Models`,
`Store`, `Forms`, `Analytics` (the trip page's figures) and `Views`.

## Model

| member | source | states |
|---|---|---|
| Models.NewTrip | planner/models.py:24-25 | a trip saved without budget or visibility has budget 0 and is public; all other fields are as given |
| Models.NewActivity | planner/models.py:51-53 | an activity saved without cost costs 0 and has no notes and no tags |
| Models.NewLink | planner/models.py:78-80 | a packing link has quantity 1, is not packed and has an empty note by default |
| Models.DestinationStr | planner/models.py:12-15 | the rendering starts with the name; with a country it is exactly name, ", ", country; without one it is the name |
| Models.DestinationStrIsNameIff | planner/models.py:12-15 | a destination renders as its bare name if and only if its country is blank |
| Models.TripPackingItemStr | planner/models.py:86-87 | the rendering is the trip's string, then ": ", then the item's string, at the stated positions |
| Models.TripStr | planner/models.py:31-32 | a trip renders as its title |
| Models.TagStr | planner/models.py:43-44 | a tag renders as its name |
| Models.ActivityStr | planner/models.py:58-59 | an activity renders as its title |
| Models.PackingItemStr | planner/models.py:71-72 | a packing item renders as its name |
| Models.OrderedTrips | planner/models.py:28-29 | the default trip order is a permutation of the trips, newest `created_at` first |
| Models.OrderedActivities | planner/models.py:55-56 | the default activity order is a permutation, ascending by date and then by title |
| Models.OrderedTags | planner/models.py:39-41 | tags come as a permutation ordered by name |
| Models.OrderedPackingItems | planner/models.py:67-69 | packing items come as a permutation ordered by name |
| Models.OrderedLinks | planner/models.py:82-84 | packing links come as a permutation ordered by their item's name |
| Store.Database.Valid | planner/models.py:83 | the invariant: unique primary keys and `unique_together` keys (also lines 40 and 68), and every trip's destination, activity's trip and link's trip and item exist |
| Store.Database.constructor | planner/models.py:40 | the empty database satisfies every key and foreign-key constraint |
| Store.Database.DeleteTrip | planner/models.py:48 | deleting a trip removes exactly the rows with that id, and cascades to its activities and (line 76) its packing links; constraints hold and other tables are unchanged |
| Store.Database.DeleteDestination | planner/models.py:21 | `PROTECT`: the delete fails exactly when some trip refers to the destination, changing nothing; otherwise only that destination goes |
| Store.Database.DeletePackingItem | planner/models.py:77 | deleting a catalogue item cascades to every packing link to it; constraints hold |
| Store.Database.DeleteActivity | planner/views.py:302 | only the rows with that id leave the activities; every other table is unchanged |
| Store.Database.DeleteLink | planner/views.py:397 | only the rows with that id leave the packing links; every other table is unchanged |
| Store.Database.SavePacked | planner/views.py:366-367 | only the packed flag of the one link is written, and the unique keys and foreign keys still hold |
| Forms.CleanTrip | planner/forms.py:15-24 | fails with the date error iff both dates are given and the end is before the start; otherwise fails with the budget error iff the budget is negative; otherwise returns the fields unchanged |
| Forms.ActivityForm.constructor | planner/forms.py:36-41 | keeps the trip and owner; with an owner the tag choices are exactly the owner's tags, in order; without one all tags |
| Forms.ActivityForm.Clean | planner/forms.py:43-52 | fails with the cost error iff the cost is negative; otherwise fails with the date error iff trip and date are given and the date is outside the trip's inclusive span; an accepted date lies in the span |
| Forms.CleanName | planner/forms.py:60-64 | refused iff the name is missing or all whitespace; an accepted name is an infix of the input with only whitespace around it, nonempty, with no whitespace at either end |
| Forms.CleanNameIdempotent | planner/forms.py:60-64 | a cleaned name is accepted again unchanged |
| Forms.CleanQuantity | planner/forms.py:78-82 | refused iff the quantity is missing or below 1; otherwise returned as given |
| Forms.TripPackingItemForm.constructor | planner/forms.py:72-76 | with an owner the item choices are exactly the owner's packing items, in order; without one all items |
| Forms.OwnedTagNamesDistinct | planner/forms.py:40-41 | under the (owner, name) uniqueness of tags, the tags offered to one owner have pairwise different names |
| Forms.OwnedItemNamesDistinct | planner/forms.py:75-76 | under the (owner, name) uniqueness of items, the items offered to one owner have pairwise different names |
| Forms.DefaultsAreValid | planner/models.py:24-25 | the default budget, cost and quantity pass the forms' validation rules |
| Text.Strip | planner/views.py:27 | `strip()` returns the infix left after removing whitespace at both ends; the result is empty or starts and ends with a non-space |
| Text.StripIdempotent | planner/views.py:27 | stripping twice equals stripping once |
| Text.StripEmptyIff | planner/views.py:35 | a string strips to nothing iff it is all whitespace |
| Text.ParseDecimalString | planner/views.py:33 | `int()` reads back the decimal rendering of every natural number |
| Grouping.Group | planner/views.py:124-125 | GROUP BY: distinct keys, exactly the rows' keys, each bucket's sum and count equal those of its key's rows, totals add up to the rows' sum |
| Analytics.TotalCost | planner/views.py:121 | `Sum('cost') or 0`: no activities total 0, one activity totals its own cost |
| Analytics.TotalCostBounds | planner/views.py:121 | with no negative cost the total is not negative and is at least every single activity's cost |
| Analytics.Remaining | planner/views.py:121-122 | remaining budget plus total cost equals the budget |
| Analytics.TotalCostPermutation | planner/views.py:121 | the total cost does not depend on the order of the activities |
| Analytics.ByDay | planner/views.py:124-126 | one bucket per distinct activity date, strictly ascending, each with that day's cost sum; the buckets add up to the total cost |
| Analytics.MostExpensiveDay | planner/views.py:172-174 | none iff there are no day entries; otherwise one of the entries, whose total no entry exceeds |
| Analytics.MostExpensiveDayIsEarliest | planner/views.py:172-174 | there is a most expensive day iff there are activities; it is an activity date with the largest day total, and the earliest among equal totals (`max` keeps the first) |
| Analytics.ByTag | planner/views.py:128-130 | one bucket per tag name carried, plus one without a name when an activity has no tag, keys distinct, each with its cost sum and its number of join rows (`uses`, line 103), largest total first |
| Analytics.TagRowsCountAt | planner/views.py:103 | `Count('id')` of a tag bucket counts one join row per occurrence of the tag on an activity, or one per untagged activity for the bucket without a name |
| Analytics.UntaggedCost | planner/views.py:128-130 | the bucket without a name holds exactly the cost of the untagged activities |
| Analytics.TagLabel | planner/views.py:135 | a tag's chart label is its name, or "Без тега" when it has no name or an empty one |
| Analytics.TagLabels | planner/views.py:135 | one label per tag bucket, in bucket order |
| Analytics.MostExpensiveActivity | planner/views.py:170 | none iff there are no activities; otherwise an activity with no cheaper cost than any other, and the latest date among equal costs |
| Analytics.RoundHalfEven | planner/views.py:168 | `round(x, 1)` on an exact ratio: within half a unit of it, and even when exactly half-way |
| Analytics.Percent | planner/views.py:168 | the percentage in tenths lies within half a tenth of the exact ratio times 100 |
| Analytics.PercentBounds | planner/views.py:166-168 | a percentage of a part within its whole lies in 0..100.0, is 0 for no part and 100.0 for the whole |
| Analytics.PackedPct | planner/views.py:166-168 | undefined iff there are no links; otherwise the rounded share of packed links, in 0..100.0, 100.0 when all are packed, 0 when none is |
| Analytics.BudgetPct | planner/views.py:176-178 | defined iff the budget is positive; then the rounded share of the budget spent, within 0..100.0 when the spending does not exceed the budget |
| Analytics.SpendingOf | planner/views.py:121-178 | the trip page's spending figures are the total, the remaining budget, budget percentage, by-day and by-tag buckets with labels, most expensive activity and day of the given activities; no most expensive day iff no activities |
| Analytics.PackingOf | planner/views.py:162-168 | total is the number of links, packed count the number packed (at most the total), percentage as `PackedPct` |
| Views.VisibleTrips | planner/views.py:17-22 | an anonymous visitor sees exactly the public trips; a signed-in user the public trips and their own |
| Views.OwnedTrip | planner/views.py:237 | the trip with that id owned by the user, or not found iff every trip with that id has another owner |
| Views.TripOwnedBy | planner/views.py:273 | true iff the trip with that id belongs to the user |
| Views.OwnedActivity | planner/views.py:297-299 | the activity is returned iff it exists and its trip belongs to the user; otherwise not found |
| Views.OwnedLink | planner/views.py:393-395 | the link's position is returned iff it exists and its trip belongs to the user; otherwise not found |
| Views.SearchTermEmptyIff | planner/views.py:27 | the search term is empty, and no search filter applies, iff `q` is missing or all whitespace |
| Views.ParamSpaceFree | planner/views.py:29 | a parameter value without whitespace is read unchanged |
| Views.DestIdAsWritten | planner/views.py:29-33 | as written: a stripped value of digits that are not all decimal raises `ValueError`; a decimal one gives an id; any other gives no id |
| Views.NonDecimalDigitFails | planner/views.py:32-33 | any modelled non-decimal digit (superscript, subscript, circled and the like) passes `isdigit()` and then makes `int()` raise |
| Views.SuperscriptDestFails | planner/views.py:32-33 | the parameter `dest=²` raises `ValueError` as written |
| Views.CircledDestFails | planner/views.py:32-33 | the parameter `dest=①` raises `ValueError` as written |
| Views.DestId | planner/views.py:29-33 | as intended: an id iff the stripped value is a run of decimal digits |
| Views.DestIdAgrees | planner/views.py:29-33 | where the code as written reads an id it reads the intended one; where it raises, the intended reading gives no id |
| Views.DestIdRoundTrip | planner/views.py:29-33 | every id written in decimal is read back as itself |
| Views.Matches | planner/views.py:36-40 | a trip whose title contains the term matches; a match has the term in its title or in its destination's name or country |
| Views.MatchesIff | planner/views.py:36-40 | with unique destination ids, a trip matches iff the term is in its title or its destination's name or country |
| Views.ListedTrips | planner/views.py:35-43 | the listed trips are exactly the rows that are visible, match the term and go to the chosen destination, never more than the table |
| Views.FilterTrips | planner/views.py:35-43 | the three chained filters give exactly `ListedTrips`: each listed row once, in table order |
| Views.OrderTrips | planner/views.py:45-53 | a permutation ordered newest first, by budget descending then newest, or by start then newest; an unknown sort becomes "new" |
| Views.ListedDestinations | planner/views.py:55-57 | exactly the destinations some listed trip goes to, each as many times as the table holds it (`distinct()`), ordered by country then name |
| Views.ListedDestinationsOnce | planner/views.py:56 | with unique destination ids no destination is listed twice |
| Views.TripList | planner/views.py:25-57 | the stripped parameters, the listed trips (the same rows as `ListedTrips`, each as often as there, in the requested order, sort falling back to "new") and their destinations, exactly `ListedDestinations` of the listed trips |
| Views.ForecastFor | planner/views.py:138-142 | a forecast is asked for iff the destination has both coordinates |
| Views.TripForecast | planner/views.py:138-142 | the trip gets a forecast iff its destination exists and has both coordinates |
| Views.WeatherRows | planner/views.py:144-160 | the loop builds the weather table: no rows unless the forecast is present and ok; otherwise as many rows as the shortest array and at most 7, row i holding entry i of each array |
| Views.DestinationOf | planner/views.py:139 | the trip's destination row when it exists, unique by primary key |
| Views.VisibleTrip | planner/views.py:117 | the trip with that id iff it is visible to the user, otherwise not found |
| Views.TripDetail | planner/views.py:116-199 | not found iff no visible trip has the id; otherwise its activities, the same rows as the trip's activities of the table, in default order; the spending figures of them with the total cost of exactly the trip's activities; the packing figures; the forecast and its full weather table; and exactly the trip's packing links in table order |
| Views.OwnedTrips | planner/views.py:80 | exactly the user's trips |
| Views.TripStatsOf | planner/views.py:81-85 | the trip count, the public and private counts adding up to it, each zero iff no trip is of that kind, and the budget sum, missing iff there are no trips |
| Views.ActivitiesOf | planner/views.py:89 | exactly the activities of the given trips |
| Views.TotalSpent | planner/views.py:90-91 | the cost sum, missing iff there are no activities |
| Views.DestinationRows | planner/views.py:96 | one (name, country, budget) row per owned trip whose destination exists; when every trip's destination exists, row i carries the name and country of trip i's destination and trip i's budget |
| Views.DestinationRanking | planner/views.py:95-98 | one entry per (name, country) with its trip count and budget sum, most trips first, then the largest budget |
| Views.DashboardOf | planner/views.py:79-105 | the dashboard's statistics, spending and the first five entries of the destination ranking and of the tag ranking, whose buckets carry their `uses` counts |
| Views.DashboardSpentIff | planner/views.py:89-91 | the spending is missing iff none of the user's trips has an activity |
| Views.DashboardDestinationLeaders | planner/views.py:95-99 | at most five destinations are listed; each ranks no lower than any left out |
| Views.DashboardTagLeaders | planner/views.py:101-105 | at most five tags are listed; each has spent no less than any left out |
| Views.TogglePacked | planner/views.py:361-368 | not found iff the link is missing or its trip is not the user's; otherwise exactly that link's flag flips and the link's trip is returned to |
| Views.TogglePackedApi | planner/views.py:371-388 | the same change, answering the new flag and the trip's packed and total counts; the total is unchanged and the packed count moves by one |
| Views.TripDelete | planner/views.py:235-241 | not found iff the user owns no trip with the id; otherwise the trip, its activities and its links go |
| Views.ActivityDelete | planner/views.py:295-304 | not found unless the activity's trip is the user's; otherwise only that activity goes |
| Views.PackingRemove | planner/views.py:391-399 | not found unless the link's trip is the user's; otherwise only that link goes and its trip is returned to |

## Left out

- Rendering, templates, messages, redirects, pagination and the `qs_params` query string are not modelled. A handler answers with its data or its failure.
- `login_required`, `require_POST` and authentication are not modelled. A handler receives the signed-in user's id.
- The GET branch of the delete views is left out. That branch shows a confirmation page and changes nothing.
- The create and edit views are modelled through their guards, their forms' hooks and the constructors that narrow the choices. The save itself is not modelled.
- `get_forecast` in `planner/services.py` is not part of this model. Its network call, timeout and cache are outside the core. The service's answer is the parameter `fetched`.
- The forecast's `summary` and any `null` inside the JSON arrays are not interpreted. Temperatures are `real`.
- `seed_demo`, the admin and the URL routes are not modelled.
- Deleting users and tags is not modelled, because no view does it. The cascades of those deletes are therefore left out too.
- The `avg_budget` and `avg_activity_cost` averages of the dashboard are left out. They are floating-point divisions.
- Analytics.RoundHalfEven: `round(float, 1)` is modelled as exact half-even rounding of the rational value to tenths. Binary floating-point error is not modelled.
- The chart lists' conversion to strings and floats and their JSON encoding are left out. The labels are modelled by `TagLabels`.
- Text.StrLe: string order is code-point order. The database's collation is not modelled.
- Text.Lower: `icontains` is modelled with ASCII case folding only.
- Text.IsDigitChar: covers the ASCII, superscript and subscript digits that `isdigit()` accepts, and the circled, parenthesized, full-stop, dingbat and digit-comma digits (U+2460–2468, U+2474–247C, U+2488–2490, U+24EA, U+24F5–24FD, U+24FF, U+2776–277E, U+2780–2788, U+278A–2792, U+1F100–1F10A). Digits of other scripts (Ethiopic, Kharoshthi and the like) are not modelled, and `Text.IsDecimalChar` accepts ASCII digits only. So for `dest=٣` (ARABIC-INDIC DIGIT THREE) the program filters by destination 3, while `Views.DestIdAsWritten` and `Views.DestId` read no id and the list is not filtered by destination.
- Views.OrderTrips: rows that are equal under `order_by` come in a stable order here. The database leaves their order unspecified.
- Views.TripDetail: the packing links come in table order. The ordering by item name is stated separately by `Models.OrderedLinks`.
- Analytics.MostExpensiveActivity: among activities with the same cost and the same date, which one `first()` returns is not specified.
- Views.DestinationRows: skips a trip whose destination row is missing. Under the integrity invariant of `Store.Database` that cannot happen.
- Views.Matches: the search looks up the trip's destination by id, where the source uses a join. The two agree while destination ids are unique.

## Findings

| source | as written | input that shows it | evidently intended | confidence | as-written member | corrected member |
|---|---|---|---|---|---|---|
| planner/views.py:32-33 | `dest_raw.isdigit()` guards `int(dest_raw)`, but `isdigit()` also accepts superscript and subscript digits, which `int()` rejects with `ValueError` | the query `?dest=²` | a value that is not a decimal id selects no destination, as every other non-numeric value does | high; derived from the Python semantics of `str.isdigit` and `int`, not executed | Views.DestIdAsWritten | Views.DestId |

The as-written behaviour is `Views.DestIdAsWritten`. `Views.NonDecimalDigitFails`, `Views.SuperscriptDestFails` and `Views.CircledDestFails` exhibit the failure. The trip list uses the corrected reading `Views.DestId`. `Views.DestIdAgrees` and `Views.DestIdRoundTrip` prove that reading: it agrees with the original wherever the original does not raise, and it reads back every id.
