// PropertyRepository: the properties table as a map from id to entity, the
// JpaRepository operations the services call, and the meaning of the derived
// finders and of the criteria query `findPropertiesByCriteria`.
module PropertyRepository {
  import opened Wrappers
  import opened Text
  import opened JavaStrings
  import opened Errors
  import opened Users
  import opened PropertyEntity

  /** The parameters of `findPropertiesByCriteria`; None stands for a null parameter. */
  datatype Criteria = Criteria(
    status: Option<PropertyStatus>,
    propertyType: Option<PropertyType>,
    city: Option<string>,
    minPrice: Option<int>,
    maxPrice: Option<int>,
    minBedrooms: Option<int>,
    minBathrooms: Option<int>)

  const NoCriteria: Criteria := Criteria(None, None, None, None, None, None, None)

  /**
   * The WHERE clause of the criteria query. A null parameter disables its
   * filter; a null column never satisfies a comparison; the city filter is
   * `LOWER(city) LIKE LOWER('%' || :city || '%')`, a case-insensitive
   * substring test.
   */
  predicate MatchesCriteria(c: Criteria, p: PropertyData)
  {
    && (c.status.None? || p.status == c.status)
    && (c.propertyType.None? || p.propertyType == c.propertyType)
    && (c.city.None? || (p.city.Some? && Contains(ToLower(p.city.value), ToLower(c.city.value))))
    && (c.minPrice.None? || (p.price.Some? && p.price.value >= c.minPrice.value))
    && (c.maxPrice.None? || (p.price.Some? && p.price.value <= c.maxPrice.value))
    && (c.minBedrooms.None? || (p.bedrooms.Some? && p.bedrooms.value >= c.minBedrooms.value))
    && (c.minBathrooms.None? || (p.bathrooms.Some? && p.bathrooms.value >= c.minBathrooms.value))
  }

  /** With every parameter null the criteria query keeps every property. */
  lemma NoCriteriaMatchesAll(p: PropertyData)
    ensures MatchesCriteria(NoCriteria, p)
  {
  }

  /**
   * With only the price parameters given, a property passes exactly when
   * it has a price within both bounds, each bound inclusive.
   */
  lemma PriceBoundsInclusive(c: Criteria, p: PropertyData)
    requires c.minPrice.Some? && c.maxPrice.Some?
    requires c.status.None? && c.propertyType.None? && c.city.None? && c.minBedrooms.None? && c.minBathrooms.None?
    ensures MatchesCriteria(c, p) <==> p.price.Some? && c.minPrice.value <= p.price.value <= c.maxPrice.value
  {
  }

  /** The commit-time failures of the properties table. */
  const ColumnViolation := Exception(Persistence, "could not execute statement; a column value violates its NOT NULL, length or precision constraint")
  const ForeignKeyViolation := Exception(Persistence, "could not execute statement; constraint violation on bookings.property_id")

  class PropertyStore {
    var properties: map<int, Property>
    var nextId: nat

    /**
     * Every stored entity carries the id it is stored under, ids below
     * `nextId` have been handed out, and every stored row fills the NOT
     * NULL columns.
     */
    ghost predicate Valid()
      reads this, properties.Values
    {
      && nextId >= 1
      && forall k :: k in properties ==> 1 <= k < nextId && properties[k].id == Some(k) && Writable(properties[k].Data())
    }

    /** `q` is the instance stored under its own id. */
    ghost predicate Stores(q: Property)
      reads this, q
    {
      q.id.Some? && q.id.value in properties && properties[q.id.value] == q
    }

    constructor ()
      ensures Valid() && properties == map[]
    {
      properties := map[];
      nextId := 1;
    }

    /** `findById`. */
    function FindById(id: int): (r: Option<Property>)
      reads this
      ensures r.Some? <==> id in properties
      ensures r.Some? ==> r.value == properties[id]
    {
      if id in properties then Some(properties[id]) else None
    }

    /** The stored properties with an id below `n` that `keep` accepts, in ascending id order. */
    function Listing(n: nat, keep: PropertyData -> bool): (r: seq<Property>)
      reads this, properties.Values
      ensures forall q :: q in r ==> q in properties.Values
    {
      if n == 0 then []
      else Listing(n - 1, keep) + (if n - 1 in properties && keep(properties[n - 1].Data()) then [properties[n - 1]] else [])
    }

    lemma {:induction false} ListingMembers(n: nat, keep: PropertyData -> bool, q: Property)
      requires Valid()
      ensures q in Listing(n, keep) <==> (Stores(q) && q.id.value < n && keep(q.Data()))
    {
      if n > 0 {
        ListingMembers(n - 1, keep, q);
      }
    }

    lemma {:induction false} ListingAscending(n: nat, keep: PropertyData -> bool)
      requires Valid()
      ensures forall q :: q in Listing(n, keep) ==> q.id.Some? && q.id.value < n
      ensures forall i, j :: 0 <= i < j < |Listing(n, keep)| ==>
                Listing(n, keep)[i].id.Some? && Listing(n, keep)[j].id.Some? &&
                Listing(n, keep)[i].id.value < Listing(n, keep)[j].id.value
    {
      forall q | q in Listing(n, keep) ensures q.id.Some? && q.id.value < n {
        ListingMembers(n, keep, q);
      }
      if n > 0 {
        ListingAscending(n - 1, keep);
        var prev := Listing(n - 1, keep);
        var l := Listing(n, keep);
        forall i, j | 0 <= i < j < |l| ensures l[i].id.Some? && l[j].id.Some? && l[i].id.value < l[j].id.value {
          if j < |prev| {
            assert l[i] == prev[i] && l[j] == prev[j];
          } else {
            assert l[j] == properties[n - 1] && l[i] == prev[i];
            assert l[i] in prev;
          }
        }
      }
    }

    /** Listings with filters that agree on every stored property are equal. */
    lemma {:induction false} ListingSameFilter(n: nat, keep: PropertyData -> bool, keep': PropertyData -> bool)
      requires forall k :: k in properties ==> keep(properties[k].Data()) == keep'(properties[k].Data())
      ensures Listing(n, keep) == Listing(n, keep')
    {
      if n > 0 { ListingSameFilter(n - 1, keep, keep'); }
    }

    /** `findAll`: every stored property. */
    function FindAll(): seq<Property>
      reads this, properties.Values
    {
      Listing(nextId, _ => true)
    }

    /** `findByStatus`. */
    function FindByStatus(s: PropertyStatus): seq<Property>
      reads this, properties.Values
    {
      Listing(nextId, (p: PropertyData) => p.status == Some(s))
    }

    /** `findByOwner`: owners are compared by id. */
    function FindByOwner(owner: User): seq<Property>
      reads this, properties.Values
    {
      Listing(nextId, (p: PropertyData) => p.owner.Some? && SameUser(p.owner.value, owner))
    }

    /** `findByCityAndStatus`: exact city equality. */
    function FindByCityAndStatus(city: string, s: PropertyStatus): seq<Property>
      reads this, properties.Values
    {
      Listing(nextId, (p: PropertyData) => p.city == Some(city) && p.status == Some(s))
    }

    /** `findPropertiesByCriteria`. */
    function FindByCriteria(c: Criteria): seq<Property>
      reads this, properties.Values
    {
      Listing(nextId, (p: PropertyData) => MatchesCriteria(c, p))
    }

    /** A query answers exactly the stored properties it accepts, each once and in id order. */
    lemma ListingIsFilter(keep: PropertyData -> bool)
      requires Valid()
      ensures forall q :: q in Listing(nextId, keep) <==> Stores(q) && keep(q.Data())
      ensures forall i, j :: 0 <= i < j < |Listing(nextId, keep)| ==> Listing(nextId, keep)[i] != Listing(nextId, keep)[j]
    {
      forall q ensures q in Listing(nextId, keep) <==> Stores(q) && keep(q.Data()) {
        ListingMembers(nextId, keep, q);
      }
      ListingAscending(nextId, keep);
    }

    /** The criteria query answers exactly the stored properties its WHERE clause accepts. */
    lemma FindByCriteriaMeaning(c: Criteria)
      requires Valid()
      ensures forall q :: q in FindByCriteria(c) <==> Stores(q) && MatchesCriteria(c, q.Data())
    {
      ListingIsFilter((p: PropertyData) => MatchesCriteria(c, p));
    }

    /** All-null criteria return every property. */
    lemma NoCriteriaIsFindAll()
      ensures FindByCriteria(NoCriteria) == FindAll()
    {
      ListingSameFilter(nextId, (p: PropertyData) => MatchesCriteria(NoCriteria, p), _ => true);
    }

    /** `findByStatus` returns exactly the properties with that status. */
    lemma FindByStatusMeaning(s: PropertyStatus)
      requires Valid()
      ensures forall q :: q in FindByStatus(s) <==> Stores(q) && q.status == Some(s)
    {
      ListingIsFilter((p: PropertyData) => p.status == Some(s));
    }

    /** `findByOwner` returns exactly the properties whose owner has that user's id. */
    lemma FindByOwnerMeaning(owner: User)
      requires Valid()
      ensures forall q :: q in FindByOwner(owner) <==>
                Stores(q) && q.owner.Some? && q.owner.value.id == owner.id
    {
      ListingIsFilter((p: PropertyData) => p.owner.Some? && SameUser(p.owner.value, owner));
    }

    /** `findByCityAndStatus` returns exactly the properties in that city with that status. */
    lemma FindByCityAndStatusMeaning(city: string, s: PropertyStatus)
      requires Valid()
      ensures forall q :: q in FindByCityAndStatus(city, s) <==>
                Stores(q) && q.city == Some(city) && q.status == Some(s)
    {
      ListingIsFilter((p: PropertyData) => p.city == Some(city) && p.status == Some(s));
    }

    /** The stored instance that `merge` would write `p` onto, if any. */
    function MergeTarget(p: Property): set<Property>
      reads this, p
    {
      if p.id.Some? && p.id.value in properties then {properties[p.id.value]} else {}
    }

    /**
     * `save` followed by the commit of the transaction around it (every
     * service saves last). An entity without an id is persisted: it gets
     * the next id after `onCreate`. The stored instance itself is written
     * back after `onUpdate`. Any other entity carrying an id is merged: its
     * fields are written over the row stored under that id, which keeps its
     * creation time, and the instance returned is the managed copy, which
     * carries every field of the entity, createdAt included; when no row has
     * that id, a new instance is inserted under the next id. A row that
     * violates a column's NOT NULL, length or precision constraint is
     * refused and nothing changes.
     */
    method Save(p: Property, now: int) returns (r: Result<Property, Exception>)
      requires Valid()
      modifies this, p, MergeTarget(p)
      ensures Valid()
      ensures match old(p.id)
              case None =>
                var row := Created(old(p.Data()), now).(id := Some(old(nextId)));
                if Writable(row) then
                  && r == Ok(p) && p.Data() == row
                  && properties == old(properties)[old(nextId) := p] && nextId == old(nextId) + 1
                else
                  && r == Err(ColumnViolation) && p.Data() == old(p.Data())
                  && properties == old(properties) && nextId == old(nextId)
              case Some(k) =>
                if k in old(properties) && old(properties)[k] == p then
                  && r == Ok(p) && p.Data() == Updated(old(p.Data()), now)
                  && properties == old(properties) && nextId == old(nextId)
                else if k in old(properties) then
                  var row := Updated(Merged(old(properties[k].Data()), old(p.Data())), now);
                  && p.Data() == old(p.Data()) && properties == old(properties) && nextId == old(nextId)
                  && if Writable(row) then
                       && properties[k].Data() == row
                       && r.Ok? && fresh(r.value) && r.value.Data() == Updated(old(p.Data()), now)
                     else r == Err(ColumnViolation) && properties[k].Data() == old(properties[k].Data())
                else
                  var row := Created(old(p.Data()), now).(id := Some(old(nextId)));
                  && p.Data() == old(p.Data())
                  && if Writable(row) then
                       && r.Ok? && fresh(r.value) && r.value.Data() == row
                       && properties == old(properties)[old(nextId) := r.value] && nextId == old(nextId) + 1
                     else r == Err(ColumnViolation) && properties == old(properties) && nextId == old(nextId)
    {
      match p.id {
        case None =>
          r := Persist(p, now);
        case Some(k) =>
          if k in properties && properties[k] == p {
            p.OnUpdate(now);
            r := Ok(p);
          } else if k in properties {
            r := MergeOnto(k, p, now);
          } else {
            r := InsertCopy(p, now);
          }
      }
    }

    /** `persist` of an entity without an id: `onCreate`, then the next id. */
    method Persist(p: Property, now: int) returns (r: Result<Property, Exception>)
      requires Valid() && p.id.None?
      modifies this, p
      ensures Valid()
      ensures var row := Created(old(p.Data()), now).(id := Some(old(nextId)));
              if Writable(row) then
                && r == Ok(p) && p.Data() == row
                && properties == old(properties)[old(nextId) := p] && nextId == old(nextId) + 1
              else
                && r == Err(ColumnViolation) && p.Data() == old(p.Data())
                && properties == old(properties) && nextId == old(nextId)
    {
      var row := Created(p.Data(), now).(id := Some(nextId));
      if !Writable(row) {
        return Err(ColumnViolation);
      }
      p.SetId(Some(nextId));
      p.OnCreate(now);
      properties := properties[nextId := p];
      nextId := nextId + 1;
      r := Ok(p);
    }

    /**
     * `merge` onto the row stored under `k`: the incoming fields, the row's
     * id and createdAt, then `onUpdate`. The managed copy returned carries
     * the incoming fields themselves, since `updatable = false` only keeps
     * createdAt out of the UPDATE.
     */
    method MergeOnto(k: int, p: Property, now: int) returns (r: Result<Property, Exception>)
      requires Valid() && k in properties && properties[k] != p
      modifies properties[k]
      ensures Valid()
      ensures p.Data() == old(p.Data())
      ensures var row := Updated(Merged(old(properties[k].Data()), old(p.Data())), now);
              if Writable(row) then
                && properties[k].Data() == row
                && r.Ok? && fresh(r.value) && r.value.Data() == Updated(old(p.Data()), now)
              else r == Err(ColumnViolation) && properties[k].Data() == old(properties[k].Data())
    {
      var stored := properties[k];
      var row := Updated(Merged(stored.Data(), p.Data()), now);
      if !Writable(row) {
        return Err(ColumnViolation);
      }
      stored.CopyFrom(row);
      var managed := new Property();
      managed.CopyFrom(Updated(p.Data(), now));
      r := Ok(managed);
    }

    /** `merge` of an entity whose id names no row: a new instance with its fields is persisted under the next id. */
    method InsertCopy(p: Property, now: int) returns (r: Result<Property, Exception>)
      requires Valid()
      modifies this
      ensures Valid()
      ensures var row := Created(old(p.Data()), now).(id := Some(old(nextId)));
              if Writable(row) then
                && r.Ok? && fresh(r.value) && r.value.Data() == row
                && properties == old(properties)[old(nextId) := r.value] && nextId == old(nextId) + 1
              else r == Err(ColumnViolation) && properties == old(properties) && nextId == old(nextId)
    {
      var row := Created(p.Data(), now).(id := Some(nextId));
      if !Writable(row) {
        return Err(ColumnViolation);
      }
      var inserted := new Property();
      inserted.CopyFrom(row);
      properties := properties[nextId := inserted];
      nextId := nextId + 1;
      r := Ok(inserted);
    }

    /**
     * `deleteById` and the commit after it: a property that a booking
     * still references (`booked` holds the property ids the bookings
     * table points at) violates the foreign key, and nothing is removed.
     */
    method DeleteById(id: int, booked: set<int>) returns (r: Result<(), Exception>)
      requires Valid()
      modifies this`properties
      ensures Valid()
      ensures id in old(properties) && id in booked ==> r == Err(ForeignKeyViolation) && properties == old(properties)
      ensures !(id in old(properties) && id in booked) ==> r == Ok(()) && properties == old(properties) - {id}
    {
      if id in properties && id in booked {
        return Err(ForeignKeyViolation);
      }
      properties := properties - {id};
      r := Ok(());
    }
  }
}
