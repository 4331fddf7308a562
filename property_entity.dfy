// The Property entity: a listing with its address, price, size, type,
// status, owner, timestamps and comma-separated image file names. Prices and
// areas are BigDecimal in the database and whole cents (hundredths) here.
module PropertyEntity {
  import opened Wrappers
  import opened Users

  datatype PropertyStatus = PENDING_APPROVAL | AVAILABLE | PENDING | SOLD | RENTED | UNAVAILABLE

  /** The PropertyType enum is not part of this model: its constants are represented by their names. */
  datatype PropertyType = PropertyType(name: string)

  /** Every field of a Property at one instant. */
  datatype PropertyData = PropertyData(
    id: Option<int>,
    address: Option<string>,
    city: Option<string>,
    state: Option<string>,
    postalCode: Option<string>,
    price: Option<int>,
    bedrooms: Option<int>,
    bathrooms: Option<int>,
    areaSqft: Option<int>,
    description: Option<string>,
    propertyType: Option<PropertyType>,
    status: Option<PropertyStatus>,
    owner: Option<User>,
    createdAt: Option<int>,
    updatedAt: Option<int>,
    imageUrls: Option<string>)

  /** A Property with every field null, as `new Property()` makes it. */
  const EmptyProperty: PropertyData :=
    PropertyData(None, None, None, None, None, None, None, None, None, None, None, None, None, None, None, None)

  /** The owner's id, falling back to `owner.id`; `getOwnerId` itself is not part of this model. */
  function OwnerId(p: PropertyData): Option<int>
  {
    if p.owner.Some? then p.owner.value.id else None
  }

  /** `@PrePersist onCreate`: createdAt is stamped and a null status becomes AVAILABLE. */
  function Created(p: PropertyData, now: int): (r: PropertyData)
    ensures r.createdAt == Some(now)
    ensures r.status == (if p.status.None? then Some(AVAILABLE) else p.status)
    ensures r.(createdAt := p.createdAt, status := p.status) == p
  {
    p.(createdAt := Some(now), status := if p.status.None? then Some(AVAILABLE) else p.status)
  }

  /** `@PreUpdate onUpdate`: only updatedAt changes. */
  function Updated(p: PropertyData, now: int): (r: PropertyData)
    ensures r.updatedAt == Some(now) && r.(updatedAt := p.updatedAt) == p
  {
    p.(updatedAt := Some(now))
  }

  /** `price` is DECIMAL(12,2): in cents, fewer than twelve digits. */
  const PriceLimit: int := 1_000_000_000_000
  /** `areaSqft` is DECIMAL(10,2): in hundredths, fewer than ten digits. */
  const AreaLimit: int := 10_000_000_000

  /** A NOT NULL text column of at most `n` characters holds a value that fits. */
  predicate Fits(s: Option<string>, n: nat)
  {
    s.Some? && |s.value| <= n
  }

  /**
   * A row the properties table accepts: every NOT NULL column (every field
   * but the id, the area, the description, updatedAt and the images) holds
   * a value, the address columns fit their lengths, and price and area fit
   * their precision.
   */
  predicate Writable(p: PropertyData)
  {
    && Fits(p.address, 255) && Fits(p.city, 100) && Fits(p.state, 50) && Fits(p.postalCode, 20)
    && p.price.Some? && -PriceLimit < p.price.value < PriceLimit
    && (p.areaSqft.None? || -AreaLimit < p.areaSqft.value < AreaLimit)
    && p.bedrooms.Some? && p.bathrooms.Some? && p.propertyType.Some? && p.status.Some?
    && p.owner.Some? && p.createdAt.Some?
  }

  /**
   * What `merge` writes over a stored row: every column of the incoming
   * entity, except the row's own id and createdAt, which is not updatable.
   */
  function Merged(row: PropertyData, incoming: PropertyData): (r: PropertyData)
    ensures r.id == row.id && r.createdAt == row.createdAt
    ensures r.(id := incoming.id, createdAt := incoming.createdAt) == incoming
  {
    incoming.(id := row.id, createdAt := row.createdAt)
  }

  class Property {
    var id: Option<int>
    var address: Option<string>
    var city: Option<string>
    var state: Option<string>
    var postalCode: Option<string>
    var price: Option<int>
    var bedrooms: Option<int>
    var bathrooms: Option<int>
    var areaSqft: Option<int>
    var description: Option<string>
    var propertyType: Option<PropertyType>
    var status: Option<PropertyStatus>
    var owner: Option<User>
    var createdAt: Option<int>
    var updatedAt: Option<int>
    var imageUrls: Option<string>

    /** The abstract value of this entity. */
    function Data(): PropertyData
      reads this
    {
      PropertyData(id, address, city, state, postalCode, price, bedrooms, bathrooms, areaSqft,
                   description, propertyType, status, owner, createdAt, updatedAt, imageUrls)
    }

    /** `new Property()`. */
    constructor ()
      ensures Data() == EmptyProperty
    {
      id, address, city, state, postalCode := None, None, None, None, None;
      price, bedrooms, bathrooms, areaSqft := None, None, None, None;
      description, propertyType, status, owner := None, None, None, None;
      createdAt, updatedAt, imageUrls := None, None, None;
    }

    /** The field-by-field copy `merge` makes onto a managed instance, a few columns at a time. */
    method CopyFrom(d: PropertyData)
      modifies this
      ensures Data() == d
    {
      CopyLocation(d);
      CopyFigures(d);
      CopyListing(d);
      CopyBookkeeping(d);
    }

    /** Copies the address columns. */
    method CopyLocation(d: PropertyData)
      modifies this`address, this`city, this`state, this`postalCode
      ensures Data() == old(Data()).(address := d.address, city := d.city, state := d.state, postalCode := d.postalCode)
    {
      address, city, state, postalCode := d.address, d.city, d.state, d.postalCode;
    }

    /** Copies the price and the sizes. */
    method CopyFigures(d: PropertyData)
      modifies this`price, this`bedrooms, this`bathrooms, this`areaSqft
      ensures Data() == old(Data()).(price := d.price, bedrooms := d.bedrooms, bathrooms := d.bathrooms, areaSqft := d.areaSqft)
    {
      price, bedrooms, bathrooms, areaSqft := d.price, d.bedrooms, d.bathrooms, d.areaSqft;
    }

    /** Copies the description, type, status and owner. */
    method CopyListing(d: PropertyData)
      modifies this`description, this`propertyType, this`status, this`owner
      ensures Data() == old(Data()).(description := d.description, propertyType := d.propertyType, status := d.status, owner := d.owner)
    {
      description, propertyType, status, owner := d.description, d.propertyType, d.status, d.owner;
    }

    /** Copies the id, the timestamps and the images. */
    method CopyBookkeeping(d: PropertyData)
      modifies this`id, this`createdAt, this`updatedAt, this`imageUrls
      ensures Data() == old(Data()).(id := d.id, createdAt := d.createdAt, updatedAt := d.updatedAt, imageUrls := d.imageUrls)
    {
      id, createdAt, updatedAt, imageUrls := d.id, d.createdAt, d.updatedAt, d.imageUrls;
    }

    /** `@PrePersist onCreate`. */
    method OnCreate(now: int)
      modifies this`createdAt, this`status
      ensures Data() == Created(old(Data()), now)
    {
      createdAt := Some(now);
      if status.None? {
        status := Some(AVAILABLE);
      }
    }

    /** `@PreUpdate onUpdate`. */
    method OnUpdate(now: int)
      modifies this`updatedAt
      ensures Data() == Updated(old(Data()), now)
    {
      updatedAt := Some(now);
    }

    method SetId(v: Option<int>)
      modifies this`id
      ensures Data() == old(Data()).(id := v)
    {
      id := v;
    }

    method SetAddress(v: Option<string>)
      modifies this`address
      ensures Data() == old(Data()).(address := v)
    {
      address := v;
    }

    method SetCity(v: Option<string>)
      modifies this`city
      ensures Data() == old(Data()).(city := v)
    {
      city := v;
    }

    method SetState(v: Option<string>)
      modifies this`state
      ensures Data() == old(Data()).(state := v)
    {
      state := v;
    }

    method SetPostalCode(v: Option<string>)
      modifies this`postalCode
      ensures Data() == old(Data()).(postalCode := v)
    {
      postalCode := v;
    }

    method SetPrice(v: Option<int>)
      modifies this`price
      ensures Data() == old(Data()).(price := v)
    {
      price := v;
    }

    method SetBedrooms(v: Option<int>)
      modifies this`bedrooms
      ensures Data() == old(Data()).(bedrooms := v)
    {
      bedrooms := v;
    }

    method SetBathrooms(v: Option<int>)
      modifies this`bathrooms
      ensures Data() == old(Data()).(bathrooms := v)
    {
      bathrooms := v;
    }

    method SetAreaSqft(v: Option<int>)
      modifies this`areaSqft
      ensures Data() == old(Data()).(areaSqft := v)
    {
      areaSqft := v;
    }

    method SetDescription(v: Option<string>)
      modifies this`description
      ensures Data() == old(Data()).(description := v)
    {
      description := v;
    }

    method SetType(v: Option<PropertyType>)
      modifies this`propertyType
      ensures Data() == old(Data()).(propertyType := v)
    {
      propertyType := v;
    }

    method SetStatus(v: Option<PropertyStatus>)
      modifies this`status
      ensures Data() == old(Data()).(status := v)
    {
      status := v;
    }

    method SetOwner(v: Option<User>)
      modifies this`owner
      ensures Data() == old(Data()).(owner := v)
    {
      owner := v;
    }

    method SetCreatedAt(v: Option<int>)
      modifies this`createdAt
      ensures Data() == old(Data()).(createdAt := v)
    {
      createdAt := v;
    }

    method SetUpdatedAt(v: Option<int>)
      modifies this`updatedAt
      ensures Data() == old(Data()).(updatedAt := v)
    {
      updatedAt := v;
    }

    method SetImageUrls(v: Option<string>)
      modifies this`imageUrls
      ensures Data() == old(Data()).(imageUrls := v)
    {
      imageUrls := v;
    }
  }
}
