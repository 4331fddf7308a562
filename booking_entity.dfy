// The Booking entity: a customer's request to visit a property at a date and
// time, with its lifecycle status, both parties' notes and a payment status.
// Dates are day numbers and times are seconds after midnight.
module BookingEntity {
  import opened Wrappers
  import opened Users
  import PropertyEntity

  datatype BookingStatus = PENDING | CONFIRMED | CANCELLED | COMPLETED | REJECTED

  const DefaultPaymentStatus: string := "PENDING"

  /** The value fields of a Booking at one instant; the property is a reference and is kept apart. */
  datatype BookingData = BookingData(
    id: Option<int>,
    customer: Option<User>,
    visitDate: Option<int>,
    visitTime: Option<int>,
    status: Option<BookingStatus>,
    customerNotes: Option<string>,
    ownerAgentNotes: Option<string>,
    paymentStatus: Option<string>,
    createdAt: Option<int>,
    updatedAt: Option<int>)

  /**
   * `@PrePersist onCreate`: createdAt is stamped, a null status becomes
   * PENDING and a null payment status becomes "PENDING"; values already
   * set are kept.
   */
  function Created(b: BookingData, now: int): (r: BookingData)
    ensures r.createdAt == Some(now)
    ensures r.status == (if b.status.None? then Some(PENDING) else b.status)
    ensures r.paymentStatus == (if b.paymentStatus.None? then Some(DefaultPaymentStatus) else b.paymentStatus)
    ensures r.(createdAt := b.createdAt, status := b.status, paymentStatus := b.paymentStatus) == b
  {
    b.(createdAt := Some(now),
       status := if b.status.None? then Some(PENDING) else b.status,
       paymentStatus := if b.paymentStatus.None? then Some(DefaultPaymentStatus) else b.paymentStatus)
  }

  /** `@PreUpdate onUpdate`: only updatedAt changes. */
  function Updated(b: BookingData, now: int): (r: BookingData)
    ensures r.updatedAt == Some(now) && r.(updatedAt := b.updatedAt) == b
  {
    b.(updatedAt := Some(now))
  }

  /**
   * What `merge` writes onto a stored row: every incoming field, except that
   * the row keeps its id and its creation time (the column is not
   * updatable).
   */
  function Merged(row: BookingData, incoming: BookingData): (r: BookingData)
    ensures r.id == row.id && r.createdAt == row.createdAt
    ensures r.(id := incoming.id, createdAt := incoming.createdAt) == incoming
  {
    incoming.(id := row.id, createdAt := row.createdAt)
  }

  class Booking {
    var id: Option<int>
    var property: PropertyEntity.Property?
    var customer: Option<User>
    var visitDate: Option<int>
    var visitTime: Option<int>
    var status: Option<BookingStatus>
    var customerNotes: Option<string>
    var ownerAgentNotes: Option<string>
    var paymentStatus: Option<string>
    var createdAt: Option<int>
    var updatedAt: Option<int>

    /** The abstract value of this entity, apart from the property reference. */
    function Data(): BookingData
      reads this
    {
      BookingData(id, customer, visitDate, visitTime, status, customerNotes, ownerAgentNotes,
                  paymentStatus, createdAt, updatedAt)
    }

    /** `new Booking()`: every field null. */
    constructor ()
      ensures property == null
      ensures Data() == BookingData(None, None, None, None, None, None, None, None, None, None)
    {
      id, property, customer, visitDate, visitTime := None, null, None, None, None;
      status, customerNotes, ownerAgentNotes, paymentStatus := None, None, None, None;
      createdAt, updatedAt := None, None;
    }

    /** The field-by-field copy `merge` makes onto a managed instance, a few columns at a time. */
    method CopyFrom(d: BookingData, p: PropertyEntity.Property?)
      modifies this
      ensures Data() == d && property == p
    {
      CopyVisit(d);
      CopyNotes(d, p);
      CopyBookkeeping(d);
    }

    /** Copies the customer, the visit slot and the status. */
    method CopyVisit(d: BookingData)
      modifies this`customer, this`visitDate, this`visitTime, this`status
      ensures Data() == old(Data()).(customer := d.customer, visitDate := d.visitDate, visitTime := d.visitTime, status := d.status)
    {
      customer, visitDate, visitTime, status := d.customer, d.visitDate, d.visitTime, d.status;
    }

    /** Copies both notes, the payment status and the property reference. */
    method CopyNotes(d: BookingData, p: PropertyEntity.Property?)
      modifies this`customerNotes, this`ownerAgentNotes, this`paymentStatus, this`property
      ensures Data() == old(Data()).(customerNotes := d.customerNotes, ownerAgentNotes := d.ownerAgentNotes, paymentStatus := d.paymentStatus)
      ensures property == p
    {
      customerNotes, ownerAgentNotes, paymentStatus, property := d.customerNotes, d.ownerAgentNotes, d.paymentStatus, p;
    }

    /** Copies the id and the timestamps. */
    method CopyBookkeeping(d: BookingData)
      modifies this`id, this`createdAt, this`updatedAt
      ensures Data() == old(Data()).(id := d.id, createdAt := d.createdAt, updatedAt := d.updatedAt)
    {
      id, createdAt, updatedAt := d.id, d.createdAt, d.updatedAt;
    }

    /** `@PrePersist onCreate`. */
    method OnCreate(now: int)
      modifies this`createdAt, this`status, this`paymentStatus
      ensures Data() == Created(old(Data()), now)
    {
      createdAt := Some(now);
      if status.None? {
        status := Some(PENDING);
      }
      if paymentStatus.None? {
        paymentStatus := Some(DefaultPaymentStatus);
      }
    }

    /** `@PreUpdate onUpdate`. */
    method OnUpdate(now: int)
      modifies this`updatedAt
      ensures Data() == Updated(old(Data()), now)
    {
      updatedAt := Some(now);
    }

    method SetId(v: Option<int>)
      modifies this`id
      ensures Data() == old(Data()).(id := v)
    {
      id := v;
    }

    method SetProperty(p: PropertyEntity.Property?)
      modifies this`property
      ensures property == p && Data() == old(Data())
    {
      property := p;
    }

    method SetCustomer(v: Option<User>)
      modifies this`customer
      ensures Data() == old(Data()).(customer := v)
    {
      customer := v;
    }

    method SetVisitDate(v: Option<int>)
      modifies this`visitDate
      ensures Data() == old(Data()).(visitDate := v)
    {
      visitDate := v;
    }

    method SetVisitTime(v: Option<int>)
      modifies this`visitTime
      ensures Data() == old(Data()).(visitTime := v)
    {
      visitTime := v;
    }

    method SetStatus(v: Option<BookingStatus>)
      modifies this`status
      ensures Data() == old(Data()).(status := v)
    {
      status := v;
    }

    method SetCustomerNotes(v: Option<string>)
      modifies this`customerNotes
      ensures Data() == old(Data()).(customerNotes := v)
    {
      customerNotes := v;
    }

    method SetOwnerAgentNotes(v: Option<string>)
      modifies this`ownerAgentNotes
      ensures Data() == old(Data()).(ownerAgentNotes := v)
    {
      ownerAgentNotes := v;
    }

    method SetPaymentStatus(v: Option<string>)
      modifies this`paymentStatus
      ensures Data() == old(Data()).(paymentStatus := v)
    {
      paymentStatus := v;
    }

    method SetCreatedAt(v: Option<int>)
      modifies this`createdAt
      ensures Data() == old(Data()).(createdAt := v)
    {
      createdAt := v;
    }

    method SetUpdatedAt(v: Option<int>)
      modifies this`updatedAt
      ensures Data() == old(Data()).(updatedAt := v)
    {
      updatedAt := v;
    }
  }
}
