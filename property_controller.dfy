// PropertyController: the public search and lookup endpoints, create with
// its required-field check and error mapping, and the entity-to-DTO
// conversion with its fallbacks for missing amenities and owner.
module PropertyController {
  import opened Wrappers
  import opened JavaStrings
  import opened Errors
  import opened Security
  import opened Users
  import opened PropertyEntity
  import opened PropertyRepository
  import opened PropertyService

  /** `PropertyDTO`: the entity's columns, the amenities, and the owner's id, name and e-mail. */
  datatype PropertyDto = PropertyDto(
    id: Option<int>,
    address: Option<string>,
    city: Option<string>,
    state: Option<string>,
    postalCode: Option<string>,
    price: Option<int>,
    bedrooms: Option<int>,
    bathrooms: Option<int>,
    areaSqft: Option<int>,
    description: Option<string>,
    propertyType: Option<PropertyType>,
    status: Option<PropertyStatus>,
    imageUrls: Option<string>,
    createdAt: Option<int>,
    updatedAt: Option<int>,
    amenities: Option<set<string>>,
    ownerId: Option<int>,
    ownerName: Option<string>,
    ownerEmail: Option<string>)

  const NotAvailable: string := "N/A"

  /** The DTO with the entity's columns copied and no amenities or owner yet. */
  function ColumnsOf(p: PropertyData): PropertyDto
  {
    PropertyDto(p.id, p.address, p.city, p.state, p.postalCode, p.price, p.bedrooms, p.bathrooms, p.areaSqft,
                p.description, p.propertyType, p.status, p.imageUrls, p.createdAt, p.updatedAt, None, None, None, None)
  }

  /**
   * `convertToDto`: null stays null; null amenities become the empty set;
   * a present owner gives id, name and e-mail, a null one the fallback id
   * and "N/A" for name and e-mail. The amenities are a parameter, as the
   * entity's `getAmenities` is not part of this model.
   */
  function ConvertToDto(p: Option<PropertyData>, amenities: Option<set<string>>): Option<PropertyDto>
  {
    if p.None? then None
    else
      var withAmenities := ColumnsOf(p.value).(amenities := Some(if amenities.Some? then amenities.value else {}));
      match p.value.owner
      case Some(owner) =>
        Some(withAmenities.(ownerId := owner.id, ownerName := Some(owner.name), ownerEmail := Some(owner.email)))
      case None => Some(withAmenities.(ownerId := OwnerId(p.value), ownerName := Some(NotAvailable), ownerEmail := Some(NotAvailable)))
  }

  /** The entity columns a DTO carries, read back. */
  function Columns(d: PropertyDto): PropertyData
  {
    PropertyData(d.id, d.address, d.city, d.state, d.postalCode, d.price, d.bedrooms, d.bathrooms, d.areaSqft,
                 d.description, d.propertyType, d.status, None, d.createdAt, d.updatedAt, d.imageUrls)
  }

  /**
   * Converting keeps every column: reading the columns back gives the
   * entity without its owner. Amenities are never null in the DTO, and
   * owner fields are either the owner's or the "N/A" fallback.
   */
  lemma ConvertToDtoMeaning(p: Option<PropertyData>, amenities: Option<set<string>>)
    ensures ConvertToDto(p, amenities).None? <==> p.None?
    ensures p.Some? ==>
              var d := ConvertToDto(p, amenities).value;
              && Columns(d) == p.value.(owner := None)
              && d.amenities == Some(if amenities.Some? then amenities.value else {})
              && d.ownerId == OwnerId(p.value)
              && (p.value.owner.Some? ==> d.ownerName == Some(p.value.owner.value.name) && d.ownerEmail == Some(p.value.owner.value.email))
              && (p.value.owner.None? ==> d.ownerName == Some(NotAvailable) && d.ownerEmail == Some(NotAvailable))
  {
  }

  /** `createProperty`'s guard: a null or blank address, city, state or postal code, or a null price, type, bedrooms or bathrooms. */
  predicate MissingRequired(p: PropertyData)
  {
    || NullOrBlank(p.address) || NullOrBlank(p.city) || NullOrBlank(p.state) || NullOrBlank(p.postalCode)
    || p.price.None? || p.propertyType.None? || p.bedrooms.None? || p.bathrooms.None?
  }

  /** The replies of this controller. */
  datatype Reply =
    | DtoReply(status: Status, dto: Option<PropertyDto>)
    | ListReply(status: Status, dtos: seq<PropertyDto>)
    | ErrorReply(status: Status, error: string)
    | EmptyReply(status: Status)

  const MissingFieldsReply := ErrorReply(BadRequest400, "Missing required fields.")
  const CreateFailedReply := ErrorReply(InternalServerError500, "Error creating property. Details logged.")

  /**
   * `createProperty`: 400 without calling the service when a required
   * field is missing; 401 with the message for the service's
   * authentication errors; 500 when the row violates a column constraint;
   * otherwise 201 with the DTO of the saved entity. A body that names a
   * stored id overwrites that property and makes the caller its owner, and
   * the reply shows the body's own fields, createdAt included; one that
   * names an unknown id is stored under the next id.
   */
  method Create(store: PropertyStore, users: UserRepository, auth: Option<Authentication>, p: Property,
                amenities: Option<set<string>>, now: int) returns (reply: Reply)
    requires store.Valid() && users.Valid()
    modifies store, p, store.MergeTarget(p)
    ensures store.Valid()
    ensures MissingRequired(old(p.Data())) || Creator(auth, users.byEmail).Err? ==>
              && p.Data() == old(p.Data()) && store.properties == old(store.properties) && store.nextId == old(store.nextId)
    ensures MissingRequired(old(p.Data())) ==> reply == MissingFieldsReply
    ensures !MissingRequired(old(p.Data())) && Creator(auth, users.byEmail).Err? ==>
              reply == ErrorReply(Unauthorized401, Creator(auth, users.byEmail).error.message)
    ensures !MissingRequired(old(p.Data())) && Creator(auth, users.byEmail).Ok? ==>
              var prepared := Prepared(old(p.Data()), Creator(auth, users.byEmail).value);
              var inserted := PropertyEntity.Created(prepared, now).(id := Some(old(store.nextId)));
              var untouched := store.properties == old(store.properties) && store.nextId == old(store.nextId);
              match old(p.id)
              case None =>
                if Writable(inserted) then
                  && p.Data() == inserted
                  && store.properties == old(store.properties)[old(store.nextId) := p]
                  && reply == DtoReply(Created201, ConvertToDto(Some(inserted), amenities))
                else untouched && reply == CreateFailedReply
              case Some(k) =>
                if k in old(store.properties) && old(store.properties)[k] == p then
                  && p.Data() == PropertyEntity.Updated(prepared, now) && store.properties == old(store.properties)
                  && reply == DtoReply(Created201, ConvertToDto(Some(p.Data()), amenities))
                else if k in old(store.properties) then
                  var merged := PropertyEntity.Updated(Merged(old(store.properties[k].Data()), prepared), now);
                  && store.properties == old(store.properties)
                  && if Writable(merged) then
                       && store.properties[k].Data() == merged
                       && reply == DtoReply(Created201, ConvertToDto(Some(PropertyEntity.Updated(prepared, now)), amenities))
                     else store.properties[k].Data() == old(store.properties[k].Data()) && reply == CreateFailedReply
                else if Writable(inserted) then
                  && store.nextId == old(store.nextId) + 1 && old(store.nextId) in store.properties
                  && store.properties == old(store.properties)[old(store.nextId) := store.properties[old(store.nextId)]]
                  && store.properties[old(store.nextId)].Data() == inserted
                  && reply == DtoReply(Created201, ConvertToDto(Some(inserted), amenities))
                else untouched && reply == CreateFailedReply
  {
    if MissingRequired(p.Data()) {
      return MissingFieldsReply;
    }
    var created := CreateProperty(store, users, auth, p, now);
    match created {
      case Ok(saved) =>
        reply := DtoReply(Created201, ConvertToDto(Some(saved.Data()), amenities));
      case Err(e) =>
        if e.kind == IllegalState || e.kind == UsernameNotFound {
          reply := ErrorReply(Unauthorized401, e.message);
        } else {
          reply := CreateFailedReply;
        }
    }
  }

  /** A property with a blank city is refused whoever asks, and nothing is stored. */
  lemma BlankCityRefused(p: PropertyData)
    requires p.city.Some? && IsBlank(p.city.value)
    ensures MissingRequired(p)
  {
  }

  /** `getPropertyById`: 404 for an unknown id, otherwise 200 with the converted entity. */
  function GetPropertyById(store: PropertyStore, id: int, amenities: Option<set<string>>): Reply
    reads store, store.properties.Values
  {
    match FindPropertyById(store, id)
    case None => EmptyReply(NotFound404)
    case Some(q) => DtoReply(Ok200, ConvertToDto(Some(q.Data()), amenities))
  }

  lemma GetPropertyByIdMeaning(store: PropertyStore, id: int, amenities: Option<set<string>>)
    ensures GetPropertyById(store, id, amenities).status == NotFound404 <==> id !in store.properties
    ensures id in store.properties ==>
              && GetPropertyById(store, id, amenities).DtoReply?
              && GetPropertyById(store, id, amenities).dto.Some?
              && Columns(GetPropertyById(store, id, amenities).dto.value) == store.properties[id].Data().(owner := None)
  {
    if id in store.properties {
      ConvertToDtoMeaning(Some(store.properties[id].Data()), amenities);
    }
  }

  /** The DTOs of a list of entities, in order; each entity's amenities come from `amenitiesOf`. */
  function DtosOf(ps: seq<Property>, amenitiesOf: PropertyData -> Option<set<string>>): (ds: seq<PropertyDto>)
    reads set i | 0 <= i < |ps| :: ps[i]
    ensures |ds| == |ps|
    ensures forall i :: 0 <= i < |ps| ==> Some(ds[i]) == ConvertToDto(Some(ps[i].Data()), amenitiesOf(ps[i].Data()))
  {
    if ps == [] then []
    else [ConvertToDto(Some(ps[0].Data()), amenitiesOf(ps[0].Data())).value] + DtosOf(ps[1..], amenitiesOf)
  }

  /** `searchProperties`: 200 with the DTOs of the service's answer. */
  function Search(store: PropertyStore, propertyType: Option<PropertyType>, city: Option<string>,
                  minPrice: Option<int>, maxPrice: Option<int>, minBedrooms: Option<int>, minBathrooms: Option<int>,
                  amenitiesOf: PropertyData -> Option<set<string>>): Reply
    reads store, store.properties.Values
  {
    var found := SearchProperties(store, propertyType, city, minPrice, maxPrice, minBedrooms, minBathrooms);
    assert forall i :: 0 <= i < |found| ==> found[i] in store.properties.Values;
    ListReply(Ok200, DtosOf(found, amenitiesOf))
  }

  /** The search always answers 200, and every property it shows is AVAILABLE. */
  lemma SearchShowsOnlyAvailable(store: PropertyStore, propertyType: Option<PropertyType>, city: Option<string>,
                                 minPrice: Option<int>, maxPrice: Option<int>, minBedrooms: Option<int>,
                                 minBathrooms: Option<int>, amenitiesOf: PropertyData -> Option<set<string>>)
    requires store.Valid()
    ensures var r := Search(store, propertyType, city, minPrice, maxPrice, minBedrooms, minBathrooms, amenitiesOf);
            && r.status == Ok200
            && forall d :: d in r.dtos ==> d.status == Some(AVAILABLE)
  {
    var found := SearchProperties(store, propertyType, city, minPrice, maxPrice, minBedrooms, minBathrooms);
    SearchPropertiesMeaning(store, propertyType, city, minPrice, maxPrice, minBedrooms, minBathrooms);
    var ds := DtosOf(found, amenitiesOf);
    forall d | d in ds
      ensures d.status == Some(AVAILABLE)
    {
      var i :| 0 <= i < |ds| && ds[i] == d;
      assert found[i] in found;
    }
  }
}
