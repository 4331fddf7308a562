// BookingRepository: the bookings table as a map from id to entity, the
// JpaRepository operations the services call, and the filter and order
// meaning of the JOIN FETCH queries and derived finders.
module BookingRepository {
  import opened Wrappers
  import opened Errors
  import opened Users
  import PropertyEntity
  import opened BookingEntity

  /** What a query can see of one booking: its own fields and those of its property, if any. */
  datatype Row = Row(booking: BookingData, property: Option<PropertyEntity.PropertyData>)

  /** The inner joins `JOIN FETCH b.property p JOIN FETCH p.owner JOIN FETCH b.customer`. */
  predicate JoinsAll(r: Row)
  {
    r.property.Some? && r.property.value.owner.Some? && r.booking.customer.Some?
  }

  /** `b.customer = :customer`, comparing users by id. */
  predicate OfCustomer(r: Row, u: User)
  {
    r.booking.customer.Some? && SameUser(r.booking.customer.value, u)
  }

  /** `b.property.owner = :owner`, comparing users by id. */
  predicate OfOwner(r: Row, u: User)
  {
    r.property.Some? && r.property.value.owner.Some? && SameUser(r.property.value.owner.value, u)
  }

  /** The sort key of `ORDER BY b.createdAt`; every stored booking has one. */
  function CreatedKey(b: Booking): int
    reads b
  {
    b.createdAt.GetOr(0)
  }

  /** Keys in descending order. */
  predicate KeysDescending(ps: seq<(int, Booking)>)
  {
    forall i, j :: 0 <= i < j < |ps| ==> ps[i].0 >= ps[j].0
  }

  function InsertDescending(p: (int, Booking), ps: seq<(int, Booking)>): (r: seq<(int, Booking)>)
    requires KeysDescending(ps)
    ensures KeysDescending(r)
    ensures multiset(r) == multiset(ps) + multiset{p}
    ensures |r| == |ps| + 1 && (r[0] == p || (|ps| > 0 && r[0] == ps[0]))
    decreases |ps|
  {
    if |ps| == 0 || p.0 >= ps[0].0 then
      PrependDescending(p, ps);
      [p] + ps
    else
      assert ps == [ps[0]] + ps[1..];
      var rest := InsertDescending(p, ps[1..]);
      PrependDescending(ps[0], rest);
      [ps[0]] + rest
  }

  /** A key no lower than the head of a descending list keeps it descending when put in front. */
  lemma PrependDescending(p: (int, Booking), ps: seq<(int, Booking)>)
    requires KeysDescending(ps)
    requires |ps| > 0 ==> p.0 >= ps[0].0
    ensures KeysDescending([p] + ps)
  {
    var r := [p] + ps;
    forall i, j | 0 <= i < j < |r| ensures r[i].0 >= r[j].0 {
      if i > 0 {
        assert r[i] == ps[i - 1] && r[j] == ps[j - 1];
      } else {
        assert r[j] == ps[j - 1];
      }
    }
  }

  /** An insertion sort on the key, highest key first. */
  function SortDescending(ps: seq<(int, Booking)>): (r: seq<(int, Booking)>)
    ensures KeysDescending(r)
    ensures multiset(r) == multiset(ps)
    decreases |ps|
  {
    if |ps| == 0 then []
    else
      assert ps == [ps[0]] + ps[1..];
      InsertDescending(ps[0], SortDescending(ps[1..]))
  }

  /** Each booking paired with its creation time. */
  function Keyed(xs: seq<Booking>): (ps: seq<(int, Booking)>)
    reads xs
    ensures |ps| == |xs|
    ensures forall i :: 0 <= i < |xs| ==> ps[i] == (CreatedKey(xs[i]), xs[i])
    decreases |xs|
  {
    if |xs| == 0 then [] else [(CreatedKey(xs[0]), xs[0])] + Keyed(xs[1..])
  }

  function Unkeyed(ps: seq<(int, Booking)>): (xs: seq<Booking>)
    ensures |xs| == |ps|
    ensures forall i :: 0 <= i < |ps| ==> xs[i] == ps[i].1
    decreases |ps|
  {
    if |ps| == 0 then [] else [ps[0].1] + Unkeyed(ps[1..])
  }

  /** `ORDER BY b.createdAt DESC` over a list of bookings. */
  function NewestFirst(xs: seq<Booking>): seq<Booking>
    reads xs
  {
    Unkeyed(SortDescending(Keyed(xs)))
  }

  predicate Distinct(xs: seq<Booking>)
  {
    forall i, j :: 0 <= i < j < |xs| ==> xs[i] != xs[j]
  }

  predicate DistinctPairs(ps: seq<(int, Booking)>)
  {
    forall i, j :: 0 <= i < j < |ps| ==> ps[i] != ps[j]
  }

  /** A repeated element occurs at least twice in the multiset. */
  lemma RepeatCounts(ps: seq<(int, Booking)>, i: int, j: int)
    requires 0 <= i < j < |ps| && ps[i] == ps[j]
    ensures multiset(ps)[ps[i]] >= 2
  {
    assert ps == ps[..j] + ps[j..];
    assert ps[i] in ps[..j];
    assert ps[j] in ps[j..];
    assert multiset(ps) == multiset(ps[..j]) + multiset(ps[j..]);
  }

  /** Without repeats every element occurs at most once. */
  lemma {:induction false} DistinctCounts(ps: seq<(int, Booking)>, p: (int, Booking))
    requires DistinctPairs(ps)
    ensures multiset(ps)[p] <= 1
    decreases |ps|
  {
    if |ps| > 0 {
      assert ps == [ps[0]] + ps[1..];
      DistinctCounts(ps[1..], p);
      if p == ps[0] {
        assert p !in ps[1..];
      }
    }
  }

  /** Two lists with the same multiset of pairs: one without repeats means the other too. */
  lemma SameMultisetDistinct(ps: seq<(int, Booking)>, qs: seq<(int, Booking)>)
    requires multiset(ps) == multiset(qs) && DistinctPairs(ps)
    ensures DistinctPairs(qs)
  {
    forall i, j | 0 <= i < j < |qs| ensures qs[i] != qs[j] {
      if qs[i] == qs[j] {
        RepeatCounts(qs, i, j);
        DistinctCounts(ps, qs[i]);
        assert false;
      }
    }
  }

  /** Sorting keeps the length, and every sorted pair still carries its booking's creation time. */
  lemma SortedKeys(xs: seq<Booking>)
    ensures var sorted := SortDescending(Keyed(xs));
            && |sorted| == |xs|
            && forall i :: 0 <= i < |sorted| ==> sorted[i].0 == CreatedKey(sorted[i].1)
  {
    var ks := Keyed(xs);
    var sorted := SortDescending(ks);
    assert |sorted| == |ks| by {
      assert |multiset(sorted)| == |multiset(ks)|;
    }
    forall i | 0 <= i < |sorted| ensures sorted[i].0 == CreatedKey(sorted[i].1) {
      assert sorted[i] in multiset(ks);
    }
  }

  /** When every pair carries its booking's own key, dropping the keys counts each booking as often as its pair. */
  lemma {:induction false} UnkeyedCount(ps: seq<(int, Booking)>, b: Booking)
    requires forall i :: 0 <= i < |ps| ==> ps[i].0 == CreatedKey(ps[i].1)
    ensures multiset(Unkeyed(ps))[b] == multiset(ps)[(CreatedKey(b), b)]
    decreases |ps|
  {
    if |ps| > 0 {
      assert ps == [ps[0]] + ps[1..];
      assert Unkeyed(ps) == [ps[0].1] + Unkeyed(ps[1..]);
      UnkeyedCount(ps[1..], b);
    }
  }

  /** Two lists of well-keyed pairs with the same multiset keep the same multiset of bookings once the keys are dropped. */
  lemma UnkeyedSameMultiset(ps: seq<(int, Booking)>, qs: seq<(int, Booking)>)
    requires forall i :: 0 <= i < |ps| ==> ps[i].0 == CreatedKey(ps[i].1)
    requires forall i :: 0 <= i < |qs| ==> qs[i].0 == CreatedKey(qs[i].1)
    requires multiset(ps) == multiset(qs)
    ensures multiset(Unkeyed(ps)) == multiset(Unkeyed(qs))
  {
    forall b ensures multiset(Unkeyed(ps))[b] == multiset(Unkeyed(qs))[b] {
      UnkeyedCount(ps, b);
      UnkeyedCount(qs, b);
    }
  }

  /** Ordering keeps exactly the same bookings, each as often as it came. */
  lemma NewestFirstSameMembers(xs: seq<Booking>)
    ensures multiset(NewestFirst(xs)) == multiset(xs)
    ensures forall b :: b in NewestFirst(xs) <==> b in xs
  {
    var ks := Keyed(xs);
    var sorted := SortDescending(ks);
    SortedKeys(xs);
    assert Unkeyed(ks) == xs;
    UnkeyedSameMultiset(sorted, ks);
    var r := NewestFirst(xs);
    forall b ensures b in r <==> b in xs {
      assert (b in r) == (b in multiset(r)) && (b in xs) == (b in multiset(xs));
    }
  }

  /** Ordering a list without repeats gives one without repeats. */
  lemma NewestFirstDistinct(xs: seq<Booking>)
    requires Distinct(xs)
    ensures Distinct(NewestFirst(xs))
  {
    var ks := Keyed(xs);
    var sorted := SortDescending(ks);
    assert DistinctPairs(ks);
    SameMultisetDistinct(ks, sorted);
    var r := Unkeyed(sorted);
    SortedKeys(xs);
    forall i, j | 0 <= i < j < |r| ensures r[i] != r[j] {
      assert sorted[i] != sorted[j];
    }
  }

  /**
   * Ordering keeps exactly the same bookings, each once if each came once,
   * and puts a later creation time before an earlier one.
   */
  lemma NewestFirstMeaning(xs: seq<Booking>)
    ensures |NewestFirst(xs)| == |xs|
    ensures forall b :: b in NewestFirst(xs) <==> b in xs
    ensures Distinct(xs) ==> Distinct(NewestFirst(xs))
    ensures forall i, j :: 0 <= i < j < |NewestFirst(xs)| ==>
              CreatedKey(NewestFirst(xs)[i]) >= CreatedKey(NewestFirst(xs)[j])
  {
    SortedKeys(xs);
    NewestFirstSameMembers(xs);
    if Distinct(xs) {
      NewestFirstDistinct(xs);
    }
  }

  /** What a query sees of `b`. */
  function RowOf(b: Booking): Row
    reads b, b.property
  {
    Row(b.Data(), if b.property == null then None else Some(b.property.Data()))
  }

  class BookingStore {
    var bookings: map<int, Booking>
    var nextId: nat

    /** Every stored booking carries its own id, below `nextId`, and a creation time. */
    ghost predicate Valid()
      reads this, bookings.Values
    {
      && nextId >= 1
      && forall k :: k in bookings ==> 1 <= k < nextId && bookings[k].id == Some(k) && bookings[k].createdAt.Some?
    }

    /** `b` is the instance stored under its own id. */
    ghost predicate Stores(b: Booking)
      reads this, b
    {
      b.id.Some? && b.id.value in bookings && bookings[b.id.value] == b
    }

    /** The properties the stored bookings point at. */
    ghost function PropertyRefs(): set<object>
      reads this, bookings.Values
    {
      set b | b in bookings.Values && b.property != null :: b.property as object
    }

    constructor ()
      ensures Valid() && bookings == map[]
    {
      bookings := map[];
      nextId := 1;
    }

    /** `findById`. */
    function FindById(id: int): (r: Option<Booking>)
      reads this
      ensures r.Some? <==> id in bookings
      ensures r.Some? ==> r.value == bookings[id]
    {
      if id in bookings then Some(bookings[id]) else None
    }

    /** The stored bookings with an id below `n` whose row `keep` accepts, in ascending id order. */
    function Listing(n: nat, keep: Row -> bool): (l: seq<Booking>)
      reads this, bookings.Values, PropertyRefs()
      ensures forall i :: 0 <= i < |l| ==> l[i] in bookings.Values
    {
      if n == 0 then []
      else Listing(n - 1, keep) + (if n - 1 in bookings && keep(RowOf(bookings[n - 1])) then [bookings[n - 1]] else [])
    }

    lemma {:induction false} ListingMembers(n: nat, keep: Row -> bool, b: Booking)
      requires Valid()
      ensures b in Listing(n, keep) <==> (Stores(b) && b.id.value < n && keep(RowOf(b)))
    {
      if n > 0 {
        ListingMembers(n - 1, keep, b);
      }
    }

    lemma {:induction false} ListingAscending(n: nat, keep: Row -> bool)
      requires Valid()
      ensures forall b :: b in Listing(n, keep) ==> b.id.Some? && b.id.value < n
      ensures Distinct(Listing(n, keep))
    {
      forall b | b in Listing(n, keep) ensures b.id.Some? && b.id.value < n {
        ListingMembers(n, keep, b);
      }
      if n > 0 {
        ListingAscending(n - 1, keep);
        var prev := Listing(n - 1, keep);
        var l := Listing(n, keep);
        forall i, j | 0 <= i < j < |l| ensures l[i] != l[j] {
          if j < |prev| {
            assert l[i] == prev[i] && l[j] == prev[j];
          } else {
            assert l[j] == bookings[n - 1] && l[i] == prev[i];
            assert l[i] in prev;
          }
        }
      }
    }

    /** A listing holds exactly the stored bookings it accepts, each once. */
    lemma ListingIsFilter(keep: Row -> bool)
      requires Valid()
      ensures forall b :: b in Listing(nextId, keep) <==> Stores(b) && keep(RowOf(b))
      ensures Distinct(Listing(nextId, keep))
    {
      forall b ensures b in Listing(nextId, keep) <==> Stores(b) && keep(RowOf(b)) {
        ListingMembers(nextId, keep, b);
      }
      ListingAscending(nextId, keep);
    }

    /** A newest-first listing holds exactly the stored bookings it accepts, each once, latest creation first. */
    lemma NewestListingIsFilter(keep: Row -> bool)
      requires Valid()
      ensures forall b :: b in NewestFirst(Listing(nextId, keep)) <==> Stores(b) && keep(RowOf(b))
      ensures Distinct(NewestFirst(Listing(nextId, keep)))
      ensures forall i, j :: 0 <= i < j < |NewestFirst(Listing(nextId, keep))| ==>
                CreatedKey(NewestFirst(Listing(nextId, keep))[i]) >= CreatedKey(NewestFirst(Listing(nextId, keep))[j])
    {
      ListingIsFilter(keep);
      NewestFirstMeaning(Listing(nextId, keep));
    }

    /** `findAll`. */
    function FindAll(): seq<Booking>
      reads this, bookings.Values, PropertyRefs()
    {
      Listing(nextId, _ => true)
    }

    /** `findByCustomer`. */
    function FindByCustomer(u: User): seq<Booking>
      reads this, bookings.Values, PropertyRefs()
    {
      Listing(nextId, (r: Row) => OfCustomer(r, u))
    }

    /** `findByPropertyOwner`. */
    function FindByPropertyOwner(u: User): seq<Booking>
      reads this, bookings.Values, PropertyRefs()
    {
      Listing(nextId, (r: Row) => OfOwner(r, u))
    }

    /** `findByProperty`: properties are compared by id. */
    function FindByProperty(propertyId: Option<int>): seq<Booking>
      reads this, bookings.Values, PropertyRefs()
    {
      Listing(nextId, (r: Row) => r.property.Some? && r.property.value.id == propertyId)
    }

    /** `findByStatus`. */
    function FindByStatus(s: BookingStatus): seq<Booking>
      reads this, bookings.Values, PropertyRefs()
    {
      Listing(nextId, (r: Row) => r.booking.status == Some(s))
    }

    /** `findByPropertyAndVisitDateAndStatusIn`. */
    function FindByPropertyAndVisitDateAndStatusIn(propertyId: Option<int>, visitDate: int, statuses: seq<BookingStatus>): seq<Booking>
      reads this, bookings.Values, PropertyRefs()
    {
      Listing(nextId, (r: Row) => r.property.Some? && r.property.value.id == propertyId
                                  && r.booking.visitDate == Some(visitDate)
                                  && r.booking.status.Some? && r.booking.status.value in statuses)
    }

    /** `findByIdAndCustomer`. */
    function FindByIdAndCustomer(id: int, u: User): (r: Option<Booking>)
      reads this, bookings.Values, PropertyRefs()
    {
      if id in bookings && OfCustomer(RowOf(bookings[id]), u) then Some(bookings[id]) else None
    }

    /** `findByIdAndPropertyOwner`. */
    function FindByIdAndPropertyOwner(id: int, u: User): (r: Option<Booking>)
      reads this, bookings.Values, PropertyRefs()
    {
      if id in bookings && OfOwner(RowOf(bookings[id]), u) then Some(bookings[id]) else None
    }

    /** `findByCustomerWithDetails`. */
    function FindByCustomerWithDetails(u: User): seq<Booking>
      reads this, bookings.Values, PropertyRefs()
    {
      NewestFirst(Listing(nextId, (r: Row) => JoinsAll(r) && OfCustomer(r, u)))
    }

    /** `findByPropertyOwnerWithDetails`: joins property and customer only. */
    function FindByPropertyOwnerWithDetails(u: User): seq<Booking>
      reads this, bookings.Values, PropertyRefs()
    {
      NewestFirst(Listing(nextId, (r: Row) => r.booking.customer.Some? && OfOwner(r, u)))
    }

    /** `findAllWithDetails`. */
    function FindAllWithDetails(): seq<Booking>
      reads this, bookings.Values, PropertyRefs()
    {
      NewestFirst(Listing(nextId, JoinsAll))
    }

    /** `findByIdWithDetails`. */
    function FindByIdWithDetails(id: int): (r: Option<Booking>)
      reads this, bookings.Values, PropertyRefs()
    {
      if id in bookings && JoinsAll(RowOf(bookings[id])) then Some(bookings[id]) else None
    }

    lemma FindByCustomerMeaning(u: User)
      requires Valid()
      ensures forall b :: b in FindByCustomer(u) <==> Stores(b) && b.customer.Some? && b.customer.value.id == u.id
      ensures Distinct(FindByCustomer(u))
    {
      ListingIsFilter((r: Row) => OfCustomer(r, u));
    }

    lemma FindByPropertyOwnerMeaning(u: User)
      requires Valid()
      ensures forall b :: b in FindByPropertyOwner(u) <==>
                Stores(b) && b.property != null && b.property.owner.Some? && b.property.owner.value.id == u.id
      ensures Distinct(FindByPropertyOwner(u))
    {
      ListingIsFilter((r: Row) => OfOwner(r, u));
    }

    /** `findByProperty` and `findByStatus` return exactly the stored bookings on that property, or with that status. */
    lemma FindByPropertyAndStatusMeaning(propertyId: Option<int>, s: BookingStatus)
      requires Valid()
      ensures forall b :: b in FindByProperty(propertyId) <==> Stores(b) && b.property != null && b.property.id == propertyId
      ensures forall b :: b in FindByStatus(s) <==> Stores(b) && b.status == Some(s)
    {
      ListingIsFilter((r: Row) => r.property.Some? && r.property.value.id == propertyId);
      ListingIsFilter((r: Row) => r.booking.status == Some(s));
    }

    lemma FindByPropertyAndVisitDateAndStatusInMeaning(propertyId: Option<int>, visitDate: int, statuses: seq<BookingStatus>)
      requires Valid()
      ensures forall b :: b in FindByPropertyAndVisitDateAndStatusIn(propertyId, visitDate, statuses) <==>
                && Stores(b) && b.property != null && b.property.id == propertyId
                && b.visitDate == Some(visitDate) && b.status.Some? && b.status.value in statuses
    {
      ListingIsFilter((r: Row) => r.property.Some? && r.property.value.id == propertyId
                                  && r.booking.visitDate == Some(visitDate)
                                  && r.booking.status.Some? && r.booking.status.value in statuses);
    }

    lemma FindByIdAndUserMeaning(id: int, u: User)
      ensures FindByIdAndCustomer(id, u).Some? <==>
                id in bookings && bookings[id].customer.Some? && bookings[id].customer.value.id == u.id
      ensures FindByIdAndPropertyOwner(id, u).Some? <==>
                && id in bookings && bookings[id].property != null
                && bookings[id].property.owner.Some? && bookings[id].property.owner.value.id == u.id
    {
    }

    /** A customer's detailed bookings: exactly theirs that have a property, an owner and a customer, newest first. */
    lemma FindByCustomerWithDetailsMeaning(u: User)
      requires Valid()
      ensures forall b :: b in FindByCustomerWithDetails(u) <==>
                Stores(b) && JoinsAll(RowOf(b)) && b.customer.value.id == u.id
      ensures Distinct(FindByCustomerWithDetails(u))
      ensures forall i, j :: 0 <= i < j < |FindByCustomerWithDetails(u)| ==>
                CreatedKey(FindByCustomerWithDetails(u)[i]) >= CreatedKey(FindByCustomerWithDetails(u)[j])
    {
      NewestListingIsFilter((r: Row) => JoinsAll(r) && OfCustomer(r, u));
    }

    /** An owner's detailed bookings: exactly those on their properties that have a customer, newest first. */
    lemma FindByPropertyOwnerWithDetailsMeaning(u: User)
      requires Valid()
      ensures forall b :: b in FindByPropertyOwnerWithDetails(u) <==>
                Stores(b) && b.customer.Some? && OfOwner(RowOf(b), u)
      ensures Distinct(FindByPropertyOwnerWithDetails(u))
      ensures forall i, j :: 0 <= i < j < |FindByPropertyOwnerWithDetails(u)| ==>
                CreatedKey(FindByPropertyOwnerWithDetails(u)[i]) >= CreatedKey(FindByPropertyOwnerWithDetails(u)[j])
    {
      NewestListingIsFilter((r: Row) => r.booking.customer.Some? && OfOwner(r, u));
    }

    /** Every fully joined booking, newest first. */
    lemma FindAllWithDetailsMeaning()
      requires Valid()
      ensures forall b :: b in FindAllWithDetails() <==> Stores(b) && JoinsAll(RowOf(b))
      ensures Distinct(FindAllWithDetails())
      ensures forall i, j :: 0 <= i < j < |FindAllWithDetails()| ==>
                CreatedKey(FindAllWithDetails()[i]) >= CreatedKey(FindAllWithDetails()[j])
    {
      NewestListingIsFilter(JoinsAll);
    }

    lemma FindByIdWithDetailsMeaning(id: int)
      ensures FindByIdWithDetails(id).Some? <==> id in bookings && JoinsAll(RowOf(bookings[id]))
      ensures FindByIdWithDetails(id).Some? ==> FindByIdWithDetails(id).value == bookings[id]
    {
    }

    /** The stored instance `save` merges `b` onto, if `b` names a stored id. */
    function MergeTarget(b: Booking): set<Booking>
      reads this, b
    {
      if b.id.Some? && b.id.value in bookings then {bookings[b.id.value]} else {}
    }

    /**
     * `save` and the commit after it: a booking without an id is inserted
     * under the next id after `onCreate`; the stored instance itself is
     * written back after `onUpdate`; any other instance is merged onto the
     * row its id names, and a managed copy with its own fields is returned,
     * or it is inserted under the next id when there is none.
     */
    method Save(b: Booking, now: int) returns (r: Result<Booking, Exception>)
      requires Valid()
      modifies this, b, MergeTarget(b)
      ensures Valid()
      ensures b.property == old(b.property)
      ensures match old(b.id)
              case None =>
                && r == Ok(b)
                && b.Data() == Created(old(b.Data()), now).(id := Some(old(nextId)))
                && bookings == old(bookings)[old(nextId) := b]
                && nextId == old(nextId) + 1
              case Some(k) =>
                if k in old(bookings) && old(bookings)[k] == b then
                  && r == Ok(b)
                  && b.Data() == Updated(old(b.Data()), now)
                  && bookings == old(bookings) && nextId == old(nextId)
                else if k in old(bookings) then
                  && bookings == old(bookings) && nextId == old(nextId)
                  && b.Data() == old(b.Data())
                  && bookings[k].Data() == Updated(Merged(old(bookings[k].Data()), old(b.Data())), now)
                  && bookings[k].property == old(b.property)
                  && r.Ok? && fresh(r.value)
                  && r.value.Data() == Updated(old(b.Data()), now) && r.value.property == old(b.property)
                else
                  && r.Ok? && fresh(r.value) && b.Data() == old(b.Data())
                  && r.value.Data() == Created(old(b.Data()), now).(id := Some(old(nextId)))
                  && r.value.property == old(b.property)
                  && bookings == old(bookings)[old(nextId) := r.value] && nextId == old(nextId) + 1
    {
      match b.id {
        case None =>
          b.SetId(Some(nextId));
          b.OnCreate(now);
          bookings := bookings[nextId := b];
          nextId := nextId + 1;
          r := Ok(b);
        case Some(k) =>
          if k in bookings && bookings[k] == b {
            b.OnUpdate(now);
            r := Ok(b);
          } else if k in bookings {
            r := MergeOnto(k, b, now);
          } else {
            r := InsertCopy(b, now);
          }
      }
    }

    /**
     * `merge` onto the instance stored under `k`: the row takes the incoming
     * fields but keeps its id and createdAt, then `onUpdate`. The instance
     * handed back is the managed copy, which carries every incoming field.
     */
    method MergeOnto(k: int, b: Booking, now: int) returns (r: Result<Booking, Exception>)
      requires Valid() && k in bookings && bookings[k] != b
      modifies bookings[k]
      ensures Valid()
      ensures b.Data() == old(b.Data()) && b.property == old(b.property)
      ensures bookings[k].Data() == Updated(Merged(old(bookings[k].Data()), old(b.Data())), now)
      ensures bookings[k].property == old(b.property)
      ensures r.Ok? && fresh(r.value)
      ensures r.value.Data() == Updated(old(b.Data()), now) && r.value.property == old(b.property)
    {
      var stored := bookings[k];
      stored.CopyFrom(Updated(Merged(stored.Data(), b.Data()), now), b.property);
      var managed := new Booking();
      managed.CopyFrom(Updated(b.Data(), now), b.property);
      r := Ok(managed);
    }

    /** `merge` of a booking whose id names no row: a new instance with its fields is persisted under the next id. */
    method InsertCopy(b: Booking, now: int) returns (r: Result<Booking, Exception>)
      requires Valid()
      modifies this
      ensures Valid()
      ensures r.Ok? && fresh(r.value)
      ensures r.value.Data() == Created(old(b.Data()), now).(id := Some(old(nextId))) && r.value.property == old(b.property)
      ensures bookings == old(bookings)[old(nextId) := r.value] && nextId == old(nextId) + 1
    {
      var inserted := new Booking();
      inserted.CopyFrom(Created(b.Data(), now).(id := Some(nextId)), b.property);
      bookings := bookings[nextId := inserted];
      nextId := nextId + 1;
      r := Ok(inserted);
    }
  }
}
