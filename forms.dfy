/** The validation hooks of the planner's forms. Each `clean` hook either
    raises a validation error (the first failing check decides which) or
    returns the cleaned value. A field that failed its own validation is
    missing from the cleaned data and is `None` here. */
module Forms {
  import opened Wrappers
  import opened Text
  import opened Models
  import opened Query

  datatype FormError =
    | EndBeforeStart      // "the end date must be after the start date"
    | NegativeBudget      // "the budget cannot be negative"
    | NegativeCost        // "the cost cannot be negative"
    | DateOutsideTrip     // "the activity date must fall within the trip"
    | NameRequired        // "a name is required"
    | QuantityTooSmall    // "the quantity must be at least 1"

  /** The cleaned trip fields that `TripForm.clean` reads. */
  datatype TripFields = TripFields(startDate: Option<Day>, endDate: Option<Day>, budget: Option<Cents>)

  predicate EndsBeforeStart(f: TripFields)
  {
    f.startDate.Some? && f.endDate.Some? && f.endDate.value < f.startDate.value
  }

  predicate BudgetNegative(f: TripFields)
  {
    f.budget.Some? && f.budget.value < 0
  }

  /** `TripForm.clean`: the date order is checked first, then the budget. */
  function CleanTrip(f: TripFields): (r: Result<TripFields, FormError>)
    ensures r == Err(EndBeforeStart) <==> EndsBeforeStart(f)
    ensures r == Err(NegativeBudget) <==> !EndsBeforeStart(f) && BudgetNegative(f)
    ensures r.Ok? <==> !EndsBeforeStart(f) && !BudgetNegative(f)
    ensures r.Ok? ==> r.value == f
  {
    if f.startDate.Some? && f.endDate.Some? && f.endDate.value < f.startDate.value then
      Err(EndBeforeStart)
    else if f.budget.Some? && f.budget.value < 0 then
      Err(NegativeBudget)
    else
      Ok(f)
  }

  /** The cleaned activity fields that `ActivityForm.clean` reads. */
  datatype ActivityFields = ActivityFields(date: Option<Day>, cost: Option<Cents>)

  /** `ActivityForm`: built for a trip and an owner; the owner restricts the
      tags that may be chosen. */
  class ActivityForm {
    var trip: Option<Trip>
    var owner: Option<Id>
    var tagChoices: seq<Tag>

    /** `__init__`: takes the trip and the owner out of the arguments, then
        narrows the tag choices (all tags) to the owner's tags when an owner is
        given. */
    constructor (trip: Option<Trip>, owner: Option<Id>, allTags: seq<Tag>)
      ensures this.trip == trip && this.owner == owner
      ensures owner.None? ==> tagChoices == allTags
      ensures owner.Some? ==> forall t :: t in tagChoices <==> t in allTags && t.owner == owner.value
      ensures owner.Some? ==> tagChoices == Select(allTags, TagOwner, owner.value)
    {
      this.trip := trip;
      this.owner := owner;
      tagChoices := allTags;
      new;
      if owner.Some? {
        tagChoices := Select(tagChoices, TagOwner, owner.value);
      }
    }

    predicate OutsideTrip(date: Option<Day>)
      reads this
    {
      trip.Some? && date.Some?
        && (date.value < trip.value.startDate || date.value > trip.value.endDate)
    }

    /** `clean`: the cost is checked first, then, when the form has a trip and
        a date, that the date lies in the trip's span (both ends included). */
    function Clean(f: ActivityFields): (r: Result<ActivityFields, FormError>)
      reads this
      ensures r == Err(NegativeCost) <==> f.cost.Some? && f.cost.value < 0
      ensures r == Err(DateOutsideTrip) <==> !(f.cost.Some? && f.cost.value < 0) && OutsideTrip(f.date)
      ensures r.Ok? <==> !(f.cost.Some? && f.cost.value < 0) && !OutsideTrip(f.date)
      ensures r.Ok? ==> r.value == f
      ensures r.Ok? && trip.Some? && f.date.Some? ==>
        trip.value.startDate <= f.date.value <= trip.value.endDate
    {
      if f.cost.Some? && f.cost.value < 0 then Err(NegativeCost)
      else if trip.Some? && f.date.Some? then
        if f.date.value < trip.value.startDate || f.date.value > trip.value.endDate then
          Err(DateOutsideTrip)
        else Ok(f)
      else Ok(f)
    }
  }

  /** `name or ''` */
  function RawName(name: Option<string>): string
  {
    if name.Some? then name.value else ""
  }

  /** `PackingItemForm.clean_name`: the name with surrounding whitespace
      removed; a missing or all-whitespace name is refused. */
  function CleanName(name: Option<string>): (r: Result<string, FormError>)
    ensures r.Err? <==> AllSpace(RawName(name))
    ensures r.Err? ==> r.error == NameRequired
    ensures r.Ok? ==> r.value != [] && !IsSpace(r.value[0]) && !IsSpace(r.value[|r.value| - 1])
    ensures r.Ok? ==> exists i :: StrippedAt(RawName(name), r.value, i)
  {
    var raw := RawName(name);
    StripEmptyIff(raw);
    var stripped := Strip(raw);
    if stripped == [] then Err(NameRequired) else Ok(stripped)
  }

  /** A cleaned name is accepted again unchanged. */
  lemma CleanNameIdempotent(name: Option<string>)
    requires !AllSpace(RawName(name))
    ensures CleanName(Some(CleanName(name).value)) == CleanName(name)
  {
    StripIdempotent(RawName(name));
  }

  /** `TripPackingItemForm.clean_quantity`: a missing quantity or one below 1
      is refused; otherwise the quantity is returned as given. */
  function CleanQuantity(q: Option<int>): (r: Result<nat, FormError>)
    ensures r.Err? <==> q.None? || q.value < 1
    ensures r.Err? ==> r.error == QuantityTooSmall
    ensures r.Ok? ==> r.value == q.value && r.value >= 1
  {
    if q.None? || q.value < 1 then Err(QuantityTooSmall) else Ok(q.value)
  }

  /** `TripPackingItemForm`: the owner restricts the packing items that may be
      chosen. */
  class TripPackingItemForm {
    var owner: Option<Id>
    var itemChoices: seq<PackingItem>

    constructor (owner: Option<Id>, allItems: seq<PackingItem>)
      ensures this.owner == owner
      ensures owner.None? ==> itemChoices == allItems
      ensures owner.Some? ==> forall p :: p in itemChoices <==> p in allItems && p.owner == owner.value
      ensures owner.Some? ==> itemChoices == Select(allItems, PackingItemOwner, owner.value)
    {
      this.owner := owner;
      itemChoices := allItems;
      new;
      if owner.Some? {
        itemChoices := Select(itemChoices, PackingItemOwner, owner.value);
      }
    }
  }

  /** Under the `(owner, name)` uniqueness of tags, the tags one owner may
      choose from have pairwise different names. */
  lemma OwnedTagNamesDistinct(allTags: seq<Tag>, owner: Id, i: nat, j: nat)
    requires TagsUnique(allTags)
    requires i < j < |Select(allTags, TagOwner, owner)|
    ensures Select(allTags, TagOwner, owner)[i].name != Select(allTags, TagOwner, owner)[j].name
  {
    var choices := Select(allTags, TagOwner, owner);
    PairwiseSelect(allTags, TagKeysDiffer, TagOwner, owner);
    PairwiseAt(choices, TagKeysDiffer, i, j);
    assert choices[i] in choices && choices[j] in choices;
  }

  /** Likewise for the packing items one owner may choose from. */
  lemma OwnedItemNamesDistinct(allItems: seq<PackingItem>, owner: Id, i: nat, j: nat)
    requires PackingItemsUnique(allItems)
    requires i < j < |Select(allItems, PackingItemOwner, owner)|
    ensures Select(allItems, PackingItemOwner, owner)[i].name != Select(allItems, PackingItemOwner, owner)[j].name
  {
    var choices := Select(allItems, PackingItemOwner, owner);
    PairwiseSelect(allItems, PackingItemKeysDiffer, PackingItemOwner, owner);
    PairwiseAt(choices, PackingItemKeysDiffer, i, j);
    assert choices[i] in choices && choices[j] in choices;
  }

  /** The field defaults pass the validation rules: a default budget and a
      default cost are not negative, and a default quantity is accepted. */
  lemma DefaultsAreValid(trip: Trip, activity: Activity, link: TripPackingItem, start: Day, end: Day)
    requires trip == NewTrip(trip.id, trip.owner, trip.title, trip.destination, start, end, trip.createdAt)
    requires activity == NewActivity(activity.id, activity.trip, activity.title, activity.date)
    requires link == NewLink(link.id, link.trip, link.item)
    ensures start <= end ==> CleanTrip(TripFields(Some(start), Some(end), Some(trip.budget))).Ok?
    ensures CleanQuantity(Some(link.quantity)) == Ok(1)
    ensures !(activity.cost < 0)
  {
  }
}
