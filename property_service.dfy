// PropertyService: listing and searching properties, creating one for the
// caller, updating its general fields and its image list, deleting it, and
// the two ownership tests the owner endpoints rely on.
module PropertyService {
  import opened Wrappers
  import opened JavaStrings
  import opened Errors
  import opened Security
  import opened Users
  import opened PropertyEntity
  import opened PropertyRepository

  const AdminAuthority: string := "ROLE_ADMIN"

  /** `findPropertyById`. */
  function FindPropertyById(store: PropertyStore, id: int): (r: Option<Property>)
    reads store
    ensures r.Some? <==> id in store.properties
    ensures r.Some? ==> r.value == store.properties[id]
  {
    store.FindById(id)
  }

  /** The criteria `searchProperties` hands to the query: always AVAILABLE, and a blank city means no city filter. */
  function SearchCriteria(propertyType: Option<PropertyType>, city: Option<string>, minPrice: Option<int>, maxPrice: Option<int>,
                          minBedrooms: Option<int>, minBathrooms: Option<int>): Criteria
  {
    var cityFilter := if city.Some? && IsBlank(city.value) then None else city;
    Criteria(Some(AVAILABLE), propertyType, cityFilter, minPrice, maxPrice, minBedrooms, minBathrooms)
  }

  /** `searchProperties`. */
  function SearchProperties(store: PropertyStore, propertyType: Option<PropertyType>, city: Option<string>,
                            minPrice: Option<int>, maxPrice: Option<int>, minBedrooms: Option<int>, minBathrooms: Option<int>)
    : seq<Property>
    reads store, store.properties.Values
  {
    store.FindByCriteria(SearchCriteria(propertyType, city, minPrice, maxPrice, minBedrooms, minBathrooms))
  }

  /** `findAllAvailableProperties`. */
  function FindAllAvailableProperties(store: PropertyStore): seq<Property>
    reads store, store.properties.Values
  {
    store.FindByStatus(AVAILABLE)
  }

  /** `findAllPropertiesAdmin`: every stored property, whatever its status. */
  function FindAllPropertiesAdmin(store: PropertyStore): seq<Property>
    reads store, store.properties.Values
  {
    store.FindAll()
  }

  /**
   * A search only ever answers AVAILABLE properties that meet the other
   * filters; a blank city filters nothing; with no other filter it answers
   * exactly the available properties.
   */
  lemma SearchPropertiesMeaning(store: PropertyStore, propertyType: Option<PropertyType>, city: Option<string>,
                                minPrice: Option<int>, maxPrice: Option<int>, minBedrooms: Option<int>, minBathrooms: Option<int>)
    requires store.Valid()
    ensures var c := SearchCriteria(propertyType, city, minPrice, maxPrice, minBedrooms, minBathrooms);
            forall q :: q in SearchProperties(store, propertyType, city, minPrice, maxPrice, minBedrooms, minBathrooms) <==>
              store.Stores(q) && q.status == Some(AVAILABLE) && MatchesCriteria(c.(status := None), q.Data())
    ensures city.Some? && IsBlank(city.value) ==>
              SearchProperties(store, propertyType, city, minPrice, maxPrice, minBedrooms, minBathrooms) ==
              SearchProperties(store, propertyType, None, minPrice, maxPrice, minBedrooms, minBathrooms)
    ensures forall q :: q in SearchProperties(store, None, None, None, None, None, None) <==> q in FindAllAvailableProperties(store)
  {
    store.FindByCriteriaMeaning(SearchCriteria(propertyType, city, minPrice, maxPrice, minBedrooms, minBathrooms));
    store.FindByCriteriaMeaning(SearchCriteria(None, None, None, None, None, None));
    store.FindByStatusMeaning(AVAILABLE);
  }

  /** The admin listing holds every stored property. */
  lemma FindAllPropertiesAdminMeaning(store: PropertyStore)
    requires store.Valid()
    ensures forall q :: q in FindAllPropertiesAdmin(store) <==> store.Stores(q)
  {
    store.ListingIsFilter(_ => true);
  }

  /** The caller `createProperty` makes owner: anonymous is an IllegalStateException, an unknown name a UsernameNotFoundException. */
  function Creator(auth: Option<Authentication>, users: map<string, User>): Result<User, Exception>
  {
    match CurrentUsername(auth)
    case None => Err(Exception(IllegalState, "User must be authenticated to create a property"))
    case Some(email) =>
      if email in users then Ok(users[email])
      else Err(Exception(UsernameNotFound, "Authenticated user not found: " + email))
  }

  /** The input after the service's own changes: the caller as owner, and AVAILABLE when no status was given. */
  function Prepared(p: PropertyData, owner: User): PropertyData
  {
    p.(owner := Some(owner), status := if p.status.None? then Some(AVAILABLE) else p.status)
  }

  /**
   * A created property belongs to the caller whatever owner the input
   * named, keeps a given status and is otherwise AVAILABLE, and keeps every
   * other field of the input.
   */
  lemma CreatedBelongsToCaller(p: PropertyData, owner: User, id: int, now: int)
    ensures var c := PropertyEntity.Created(Prepared(p, owner), now).(id := Some(id));
            && c.owner == Some(owner) && OwnerId(c) == owner.id
            && c.status == (if p.status.None? then Some(AVAILABLE) else p.status)
            && c.createdAt == Some(now)
            && c.(id := p.id, owner := p.owner, status := p.status, createdAt := p.createdAt) == p
  {
  }

  /**
   * `createProperty`: the caller becomes owner, the status is defaulted,
   * and the entity is saved. An input that carries an id goes through
   * `merge`: it overwrites the property stored under that id, whose row
   * keeps its creation time while the copy returned carries the input's,
   * or it becomes a new property under the next id when there is none.
   */
  method CreateProperty(store: PropertyStore, users: UserRepository, auth: Option<Authentication>, p: Property, now: int)
    returns (r: Result<Property, Exception>)
    requires store.Valid() && users.Valid()
    modifies store, p, store.MergeTarget(p)
    ensures store.Valid()
    ensures match Creator(auth, users.byEmail)
            case Err(e) =>
              && r == Err(e) && p.Data() == old(p.Data())
              && store.properties == old(store.properties) && store.nextId == old(store.nextId)
            case Ok(owner) =>
              var prepared := Prepared(old(p.Data()), owner);
              var inserted := PropertyEntity.Created(prepared, now).(id := Some(old(store.nextId)));
              match old(p.id)
              case None =>
                if Writable(inserted) then
                  && r == Ok(p) && p.Data() == inserted
                  && store.properties == old(store.properties)[old(store.nextId) := p]
                  && store.nextId == old(store.nextId) + 1
                else
                  && r == Err(ColumnViolation) && p.Data() == prepared
                  && store.properties == old(store.properties) && store.nextId == old(store.nextId)
              case Some(k) =>
                if k in old(store.properties) && old(store.properties)[k] == p then
                  && r == Ok(p) && p.Data() == PropertyEntity.Updated(prepared, now)
                  && store.properties == old(store.properties) && store.nextId == old(store.nextId)
                else if k in old(store.properties) then
                  var merged := PropertyEntity.Updated(Merged(old(store.properties[k].Data()), prepared), now);
                  && p.Data() == prepared && store.properties == old(store.properties) && store.nextId == old(store.nextId)
                  && if Writable(merged) then
                       && store.properties[k].Data() == merged
                       && r.Ok? && fresh(r.value) && r.value.Data() == PropertyEntity.Updated(prepared, now)
                     else r == Err(ColumnViolation) && store.properties[k].Data() == old(store.properties[k].Data())
                else
                  && p.Data() == prepared
                  && if Writable(inserted) then
                       && r.Ok? && fresh(r.value) && r.value.Data() == inserted
                       && store.properties == old(store.properties)[old(store.nextId) := r.value]
                       && store.nextId == old(store.nextId) + 1
                     else r == Err(ColumnViolation) && store.properties == old(store.properties) && store.nextId == old(store.nextId)
  {
    var email := CurrentUsername(auth);
    if email.None? {
      return Err(Exception(IllegalState, "User must be authenticated to create a property"));
    }
    var owner := users.FindByEmail(email.value);
    if owner.None? {
      return Err(Exception(UsernameNotFound, "Authenticated user not found: " + email.value));
    }
    p.SetOwner(Some(owner.value));
    if p.status.None? {
      p.SetStatus(Some(AVAILABLE));
    }
    r := store.Save(p, now);
  }

  /**
   * The merge path of `createProperty` as written: a body naming the id of
   * a stored property replaces that property's general fields with the
   * body's and makes the caller its owner, while the row keeps its id and
   * creation time.
   */
  lemma TakeoverAsWritten(row: PropertyData, body: PropertyData, caller: User, now: int)
    requires row.id.Some? && body.id == row.id
    requires row.owner.Some? && row.owner != Some(caller)
    ensures var after := PropertyEntity.Updated(Merged(row, Prepared(body, caller)), now);
            && after.id == row.id && after.createdAt == row.createdAt
            && after.owner == Some(caller) && after.owner != row.owner
            && after.address == body.address && after.price == body.price && after.description == body.description
  {
  }

  /**
   * `createProperty` as it is evidently meant: the id of the request body
   * is discarded, so the entity is always persisted as a new property and
   * no stored property changes.
   */
  method CreateNewProperty(store: PropertyStore, users: UserRepository, auth: Option<Authentication>, p: Property, now: int)
    returns (r: Result<Property, Exception>)
    requires store.Valid() && users.Valid()
    requires forall k :: k in store.properties ==> store.properties[k] != p
    modifies store, p
    ensures store.Valid()
    ensures forall k :: k in old(store.properties) ==> k in store.properties && store.properties[k] == old(store.properties[k])
    ensures forall k :: k in old(store.properties) ==> store.properties[k].Data() == old(store.properties[k].Data())
    ensures match Creator(auth, users.byEmail)
            case Err(e) =>
              && r == Err(e) && p.Data() == old(p.Data()).(id := None)
              && store.properties == old(store.properties) && store.nextId == old(store.nextId)
            case Ok(owner) =>
              var inserted := PropertyEntity.Created(Prepared(old(p.Data()).(id := None), owner), now).(id := Some(old(store.nextId)));
              if Writable(inserted) then
                && r == Ok(p) && p.Data() == inserted
                && store.properties == old(store.properties)[old(store.nextId) := p]
                && store.nextId == old(store.nextId) + 1
              else
                && r.Err? && r.error == ColumnViolation
                && store.properties == old(store.properties) && store.nextId == old(store.nextId)
  {
    p.SetId(None);
    r := CreateProperty(store, users, auth, p, now);
  }

  /** The eleven general fields `updateProperty` copies from the request; id, owner, images and timestamps stay. */
  function Copied(existing: PropertyData, changes: PropertyData): PropertyData
  {
    existing.(address := changes.address, city := changes.city, state := changes.state, postalCode := changes.postalCode,
              price := changes.price, bedrooms := changes.bedrooms, bathrooms := changes.bathrooms,
              areaSqft := changes.areaSqft, description := changes.description, propertyType := changes.propertyType,
              status := changes.status)
  }

  /** An update leaves the owner, the images, the id and the creation time alone, and takes every general field from the request. */
  lemma CopiedKeepsOwnerAndImages(existing: PropertyData, changes: PropertyData)
    ensures var c := Copied(existing, changes);
            && c.id == existing.id && c.owner == existing.owner && OwnerId(c) == OwnerId(existing)
            && c.imageUrls == existing.imageUrls && c.createdAt == existing.createdAt && c.updatedAt == existing.updatedAt
            && c.(id := changes.id, owner := changes.owner, imageUrls := changes.imageUrls,
                  createdAt := changes.createdAt, updatedAt := changes.updatedAt) == changes
  {
  }

  /** The eleven setter calls of `updateProperty`, from address to status. */
  method ApplyChanges(existing: Property, changes: PropertyData)
    modifies existing
    ensures existing.Data() == Copied(old(existing.Data()), changes)
  {
    existing.SetAddress(changes.address);
    existing.SetCity(changes.city);
    existing.SetState(changes.state);
    existing.SetPostalCode(changes.postalCode);
    existing.SetPrice(changes.price);
    existing.SetBedrooms(changes.bedrooms);
    existing.SetBathrooms(changes.bathrooms);
    existing.SetAreaSqft(changes.areaSqft);
    existing.SetDescription(changes.description);
    existing.SetType(changes.propertyType);
    existing.SetStatus(changes.status);
  }

  /**
   * `updateProperty`: empty and no change for an unknown id; otherwise the
   * general fields are copied and saved. A copy that leaves a NOT NULL
   * column empty fails at commit and is rolled back.
   */
  method UpdateProperty(store: PropertyStore, id: int, changes: PropertyData, now: int)
    returns (r: Result<Option<Property>, Exception>)
    requires store.Valid()
    modifies store, if id in store.properties then {store.properties[id]} else {}
    ensures store.Valid()
    ensures store.properties == old(store.properties) && store.nextId == old(store.nextId)
    ensures id !in store.properties ==> r == Ok(None)
    ensures id in store.properties ==>
              var row := PropertyEntity.Updated(Copied(old(store.properties[id].Data()), changes), now);
              if Writable(row) then r == Ok(Some(store.properties[id])) && store.properties[id].Data() == row
              else r == Err(ColumnViolation) && store.properties[id].Data() == old(store.properties[id].Data())
  {
    var found := store.FindById(id);
    if found.None? {
      return Ok(None);
    }
    var existing := found.value;
    // The commit would refuse the copy and roll it back, so it is not made.
    if !Writable(PropertyEntity.Updated(Copied(existing.Data(), changes), now)) {
      return Err(ColumnViolation);
    }
    ApplyChanges(existing, changes);
    var saved := store.Save(existing, now);
    r := Ok(Some(existing));
  }

  /** `updateImageUrls`: an unknown id is an IllegalArgumentException; otherwise only imageUrls (and updatedAt) change. */
  method UpdateImageUrls(store: PropertyStore, id: int, urls: Option<string>, now: int) returns (r: Result<Property, Exception>)
    requires store.Valid()
    modifies store, if id in store.properties then {store.properties[id]} else {}
    ensures store.Valid()
    ensures store.properties == old(store.properties) && store.nextId == old(store.nextId)
    ensures id !in store.properties ==> r == Err(Exception(IllegalArgument, "Property not found with ID: " + IntToString(id)))
    ensures id in store.properties ==>
              r == Ok(store.properties[id]) &&
              store.properties[id].Data() == PropertyEntity.Updated(old(store.properties[id].Data()).(imageUrls := urls), now)
  {
    var found := store.FindById(id);
    if found.None? {
      return Err(Exception(IllegalArgument, "Property not found with ID: " + IntToString(id)));
    }
    var property := found.value;
    property.SetImageUrls(urls);
    r := store.Save(property, now);
  }

  /**
   * `deleteProperty`: false and no change for an unknown id; a property
   * that a booking references fails the foreign key at commit and stays;
   * otherwise it is removed.
   */
  method DeleteProperty(store: PropertyStore, id: int, booked: set<int>) returns (r: Result<bool, Exception>)
    requires store.Valid()
    modifies store`properties
    ensures store.Valid()
    ensures id !in old(store.properties) ==> r == Ok(false) && store.properties == old(store.properties)
    ensures id in old(store.properties) && id in booked ==>
              r == Err(ForeignKeyViolation) && store.properties == old(store.properties)
    ensures id in old(store.properties) && id !in booked ==>
              r == Ok(true) && store.properties == old(store.properties) - {id}
  {
    var found := store.FindById(id);
    if found.None? {
      return Ok(false);
    }
    var deleted := store.DeleteById(id, booked);
    if deleted.Err? {
      return Err(deleted.error);
    }
    r := Ok(true);
  }

  /** The stored user behind a non-anonymous caller, as both ownership tests look it up. */
  function AuthenticatedUser(auth: Option<Authentication>, users: map<string, User>): Result<User, Exception>
    requires !IsAnonymous(auth)
  {
    var name := Name(auth.value);
    if name in users then Ok(users[name])
    else Err(Exception(UsernameNotFound, "Authenticated user not found in DB: " + name))
  }

  /**
   * `checkOwnership`: false for an anonymous caller or a property without
   * owner id, an exception for an unknown caller or property, and
   * otherwise whether the owner's id is the caller's id. Admins get no
   * shortcut.
   */
  function CheckOwnership(store: PropertyStore, users: map<string, User>, auth: Option<Authentication>, id: int)
    : Result<bool, Exception>
    reads store, store.properties.Values
  {
    if IsAnonymous(auth) then Ok(false)
    else
      match AuthenticatedUser(auth, users)
      case Err(e) => Err(e)
      case Ok(caller) =>
        if id !in store.properties then Err(Exception(IllegalArgument, "Property not found with ID: " + IntToString(id)))
        else
          var ownerId := OwnerId(store.properties[id].Data());
          if ownerId.None? then Ok(false) else Ok(ownerId == caller.id)
  }

  /** `checkOwnership` holds exactly for the owner of a stored property, identified by id; any authority is irrelevant. */
  lemma CheckOwnershipMeaning(store: PropertyStore, users: map<string, User>, auth: Option<Authentication>, id: int)
    ensures CheckOwnership(store, users, auth, id) == Ok(true) <==>
              && !IsAnonymous(auth) && Name(auth.value) in users && id in store.properties
              && store.properties[id].owner.Some? && store.properties[id].owner.value.id.Some?
              && store.properties[id].owner.value.id == users[Name(auth.value)].id
    ensures IsAnonymous(auth) ==> CheckOwnership(store, users, auth, id) == Ok(false)
    ensures !IsAnonymous(auth) && Name(auth.value) in users && id !in store.properties ==>
              CheckOwnership(store, users, auth, id).Err? && CheckOwnership(store, users, auth, id).error.kind == IllegalArgument
    ensures auth.Some? ==>
              forall a: seq<string> :: CheckOwnership(store, users, Some(auth.value.(authorities := a)), id) == CheckOwnership(store, users, auth, id)
  {
  }

  /**
   * `verifyOwnershipOrAdmin`: the owner or a holder of ROLE_ADMIN passes;
   * a property without owner id is an IllegalStateException, anyone else
   * a SecurityException.
   */
  function VerifyOwnershipOrAdmin(users: map<string, User>, auth: Option<Authentication>, p: PropertyData)
    : Result<(), Exception>
  {
    if IsAnonymous(auth) then Err(Exception(SecurityException, "Authentication required."))
    else
      match AuthenticatedUser(auth, users)
      case Err(e) => Err(e)
      case Ok(caller) =>
        var ownerId := OwnerId(p);
        if ownerId.None? then Err(Exception(IllegalState, "Property owner information is missing or not loaded."))
        else if ownerId != caller.id && !HasAuthority(auth.value, AdminAuthority) then
          Err(Exception(SecurityException, "User does not have permission to modify this property."))
        else Ok(())
  }

  /** The check passes exactly for a known caller who owns the property or holds ROLE_ADMIN, when the owner id is known. */
  lemma VerifyOwnershipOrAdminMeaning(users: map<string, User>, auth: Option<Authentication>, p: PropertyData)
    ensures VerifyOwnershipOrAdmin(users, auth, p).Ok? <==>
              && !IsAnonymous(auth) && Name(auth.value) in users && OwnerId(p).Some?
              && (OwnerId(p) == users[Name(auth.value)].id || AdminAuthority in auth.value.authorities)
    ensures !IsAnonymous(auth) && Name(auth.value) in users && OwnerId(p).None? ==>
              VerifyOwnershipOrAdmin(users, auth, p) == Err(Exception(IllegalState, "Property owner information is missing or not loaded."))
  {
  }

  /** Whoever passes `checkOwnership` also passes `verifyOwnershipOrAdmin`; an admin who is not the owner passes only the latter. */
  lemma OwnershipImpliesVerified(store: PropertyStore, users: map<string, User>, auth: Option<Authentication>, id: int)
    requires CheckOwnership(store, users, auth, id) == Ok(true)
    ensures id in store.properties
    ensures VerifyOwnershipOrAdmin(users, auth, store.properties[id].Data()).Ok?
  {
  }

  /** An admin who does not own a stored property with a known owner fails `checkOwnership` yet passes `verifyOwnershipOrAdmin`. */
  lemma AdminPassesOnlyVerified(store: PropertyStore, users: map<string, User>, auth: Option<Authentication>, id: int)
    requires !IsAnonymous(auth) && Name(auth.value) in users && AdminAuthority in auth.value.authorities
    requires id in store.properties && OwnerId(store.properties[id].Data()).Some?
    requires OwnerId(store.properties[id].Data()) != users[Name(auth.value)].id
    ensures CheckOwnership(store, users, auth, id) == Ok(false)
    ensures VerifyOwnershipOrAdmin(users, auth, store.properties[id].Data()) == Ok(())
  {
  }

  /** Right after `createProperty` the caller passes `checkOwnership` on the new property. */
  lemma CreatorPassesCheckOwnership(store: PropertyStore, users: UserRepository, auth: Option<Authentication>, id: int)
    requires users.Valid() && id in store.properties
    requires Creator(auth, users.byEmail).Ok?
    requires store.properties[id].owner == Some(Creator(auth, users.byEmail).value)
    ensures CheckOwnership(store, users.byEmail, auth, id) == Ok(true)
  {
    assert users.byEmail[Name(auth.value)].id.Some?;
  }
}
