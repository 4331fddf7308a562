// BookingController: the booking endpoints, their role guards, the mapping
// of service exceptions to HTTP replies, and the booking-to-DTO conversion.
module BookingController {
  import opened Wrappers
  import opened Errors
  import opened Security
  import opened Users
  import opened PropertyEntity
  import opened BookingEntity
  import opened BookingRepository
  import opened BookingService
  import PropertyRepository

  /** `BookingResponseDTO`: the booking's own fields, then property, owner and customer summaries. */
  datatype BookingDto = BookingDto(
    id: Option<int>,
    status: Option<BookingStatus>,
    paymentStatus: Option<string>,
    customerNotes: Option<string>,
    ownerAgentNotes: Option<string>,
    visitDate: Option<int>,
    visitTime: Option<int>,
    createdAt: Option<int>,
    propertyId: Option<int>,
    propertyAddress: Option<string>,
    propertyCity: Option<string>,
    ownerId: Option<int>,
    ownerName: Option<string>,
    customerId: Option<int>,
    customerName: Option<string>)

  const NotAvailable: string := "N/A"

  /**
   * `convertToDto`: the booking's fields; the property's id, address and
   * city and its owner's id and name (or the fallback id and "N/A") when
   * a property is attached; the customer's id and name when present.
   */
  function ConvertToDto(r: Row): BookingDto
  {
    var b := r.booking;
    var base := BookingDto(b.id, b.status, b.paymentStatus, b.customerNotes, b.ownerAgentNotes, b.visitDate,
                           b.visitTime, b.createdAt, None, None, None, None, None, None, None);
    var withProperty :=
      match r.property
      case None => base
      case Some(p) =>
        base.(propertyId := p.id, propertyAddress := p.address, propertyCity := p.city, ownerId := OwnerId(p),
              ownerName := Some(if p.owner.Some? then p.owner.value.name else NotAvailable));
    match b.customer
    case None => withProperty
    case Some(c) => withProperty.(customerId := c.id, customerName := Some(c.name))
  }

  /**
   * The DTO names the booking, its property's owner and its customer by
   * their ids, and leaves property and customer fields empty exactly when
   * the booking has none.
   */
  lemma ConvertToDtoMeaning(r: Row)
    ensures var d := ConvertToDto(r);
            && d.id == r.booking.id && d.status == r.booking.status && d.paymentStatus == r.booking.paymentStatus
            && d.customerNotes == r.booking.customerNotes && d.ownerAgentNotes == r.booking.ownerAgentNotes
            && d.visitDate == r.booking.visitDate && d.visitTime == r.booking.visitTime && d.createdAt == r.booking.createdAt
            && (r.property.None? <==> d.ownerName.None?)
            && (r.property.Some? ==> d.propertyId == r.property.value.id && d.ownerId == OwnerId(r.property.value))
            && (r.property.None? ==> d.propertyId.None? && d.propertyAddress.None? && d.propertyCity.None? && d.ownerId.None?)
            && (r.booking.customer.None? <==> d.customerName.None?)
            && (r.booking.customer.Some? ==> d.customerId == r.booking.customer.value.id)
            && (r.booking.customer.None? ==> d.customerId.None?)
  {
  }

  /** The replies of this controller. */
  datatype Reply =
    | DtoReply(status: Status, dto: BookingDto)
    | ListReply(status: Status, dtos: seq<BookingDto>)
    | ErrorReply(status: Status, error: string)
    | EmptyReply(status: Status)

  /**
   * The catch blocks of create and update: 400 with the message for an
   * illegal argument, 403 with the message for a denied access, 500 with
   * the endpoint's fixed text for anything else.
   */
  function ErrorOf(e: Exception, fallback: string): Reply
  {
    if e.kind == IllegalArgument then ErrorReply(BadRequest400, e.message)
    else if e.kind == AccessDenied then ErrorReply(Forbidden403, e.message)
    else ErrorReply(InternalServerError500, fallback)
  }

  /**
   * A null property id reaches `findById` and comes back as a data-access
   * exception, not an illegal argument: the create endpoint answers it with
   * its fixed 500 text.
   */
  lemma NullPropertyIdIsServerError(auth: Option<Authentication>, users: map<string, User>, known: set<int>)
    requires CurrentUsername(auth).Some? && CurrentUsername(auth).value in users
    ensures CreateCheck(auth, users, None, known) == Err(Exception(Persistence, NullId))
    ensures ErrorOf(CreateCheck(auth, users, None, known).error, CreateFailed) == ErrorReply(InternalServerError500, CreateFailed)
  {
  }

  /**
   * The service refuses a status change with a `SecurityException`, which
   * none of the controller's handlers names specifically: every refusal of
   * the permission table reaches the client as a 500 with the fixed text.
   */
  lemma RefusedChangeIsServerError(newStatus: BookingStatus, notes: Option<string>, rel: Relation)
    requires StatusChange(newStatus, notes, rel).Err?
    ensures ErrorOf(StatusChange(newStatus, notes, rel).error, "Update failed.") == ErrorReply(InternalServerError500, "Update failed.")
  {
    StatusChangeFollowsTable(newStatus, notes, rel);
  }

  /** The DTOs of a list of bookings, in order. */
  function DtosOf(bs: seq<Booking>): (ds: seq<BookingDto>)
    reads set i | 0 <= i < |bs| :: bs[i]
    reads set i | 0 <= i < |bs| && bs[i].property != null :: bs[i].property
    ensures |ds| == |bs|
    ensures forall i :: 0 <= i < |bs| ==> ds[i] == ConvertToDto(RowOf(bs[i]))
  {
    if bs == [] then [] else [ConvertToDto(RowOf(bs[0]))] + DtosOf(bs[1..])
  }

  /** A list endpoint: 200 with the DTOs of the service's answer, 500 with an empty list when the service throws. */
  function ListOf(answer: Result<seq<Booking>, Exception>, store: BookingStore): Reply
    requires answer.Ok? ==> forall b :: b in answer.value ==> b in store.bookings.Values
    reads store, store.bookings.Values, store.PropertyRefs()
  {
    match answer
    case Err(_) => ListReply(InternalServerError500, [])
    case Ok(bs) => ListReply(Ok200, DtosOf(bs))
  }

  /** `getMyCustomerBookings`, behind `hasRole('CUSTOMER')`. */
  function GetMyCustomerBookings(store: BookingStore, users: map<string, User>, auth: Option<Authentication>): Reply
    reads store, store.bookings.Values, store.PropertyRefs()
  {
    if !HasRole(auth, "CUSTOMER") then ListReply(Forbidden403, [])
    else ListOf(FindMyBookingsAsCustomer(store, users, auth), store)
  }

  /** `getMyOwnerBookings`, behind `hasRole('PROPERTY_OWNER')`. */
  function GetMyOwnerBookings(store: BookingStore, users: map<string, User>, auth: Option<Authentication>): Reply
    reads store, store.bookings.Values, store.PropertyRefs()
  {
    if !HasRole(auth, "PROPERTY_OWNER") then ListReply(Forbidden403, [])
    else ListOf(FindMyBookingsAsOwner(store, users, auth), store)
  }

  /** `getAllBookingsAdmin`, behind `hasRole('ADMIN')`. */
  function GetAllBookingsAdmin(store: BookingStore, users: map<string, User>, auth: Option<Authentication>): Reply
    reads store, store.bookings.Values, store.PropertyRefs()
  {
    if !HasRole(auth, "ADMIN") then ListReply(Forbidden403, [])
    else ListOf(FindAllBookingsAdmin(store, users, auth), store)
  }

  /**
   * A customer's list shows only bookings whose customer is the caller,
   * an owner's list only bookings on the caller's properties, and neither
   * is shown without the role.
   */
  lemma MyBookingsShowOnlyMine(store: BookingStore, users: map<string, User>, auth: Option<Authentication>)
    requires store.Valid()
    ensures !HasRole(auth, "CUSTOMER") ==> GetMyCustomerBookings(store, users, auth) == ListReply(Forbidden403, [])
    ensures !HasRole(auth, "PROPERTY_OWNER") ==> GetMyOwnerBookings(store, users, auth) == ListReply(Forbidden403, [])
    ensures GetMyCustomerBookings(store, users, auth).status == Ok200 ==>
              forall d :: d in GetMyCustomerBookings(store, users, auth).dtos ==> d.customerId == users[Name(auth.value)].id
    ensures GetMyOwnerBookings(store, users, auth).status == Ok200 ==>
              forall d :: d in GetMyOwnerBookings(store, users, auth).dtos ==> d.ownerId == users[Name(auth.value)].id
  {
    FindMyBookingsMeaning(store, users, auth);
    if GetMyCustomerBookings(store, users, auth).status == Ok200 {
      var bs := FindMyBookingsAsCustomer(store, users, auth).value;
      var ds := DtosOf(bs);
      forall d | d in ds ensures d.customerId == users[Name(auth.value)].id {
        var i :| 0 <= i < |ds| && ds[i] == d;
        assert bs[i] in bs;
        ConvertToDtoMeaning(RowOf(bs[i]));
      }
    }
    if GetMyOwnerBookings(store, users, auth).status == Ok200 {
      var bs := FindMyBookingsAsOwner(store, users, auth).value;
      var ds := DtosOf(bs);
      forall d | d in ds ensures d.ownerId == users[Name(auth.value)].id {
        var i :| 0 <= i < |ds| && ds[i] == d;
        assert bs[i] in bs;
        ConvertToDtoMeaning(RowOf(bs[i]));
      }
    }
  }

  /** Only an admin whose stored role is "ADMIN" sees the full list, with one DTO per stored booking. */
  lemma AllBookingsForAdminOnly(store: BookingStore, users: map<string, User>, auth: Option<Authentication>)
    requires store.Valid()
    ensures GetAllBookingsAdmin(store, users, auth).status == Ok200 <==>
              HasRole(auth, "ADMIN") && !IsAnonymous(auth) && Name(auth.value) in users && users[Name(auth.value)].role == Some(AdminRole)
    ensures GetAllBookingsAdmin(store, users, auth).status == Ok200 ==>
              |GetAllBookingsAdmin(store, users, auth).dtos| == |FindAllBookingsAdmin(store, users, auth).value|
  {
    FindAllBookingsAdminMeaning(store, users, auth);
  }

  /** `getBookingById`: 403 for an anonymous caller, 404 for an unknown id, 200 for a permitted caller. */
  function GetBookingById(store: BookingStore, users: map<string, User>, auth: Option<Authentication>, id: int): Reply
    reads store, store.bookings.Values, store.PropertyRefs()
  {
    if IsAnonymous(auth) then EmptyReply(Forbidden403)
    else
      match FindBookingByIdWithAuth(store, users, auth, id)
      case Ok(None) => EmptyReply(NotFound404)
      case Ok(Some(b)) => DtoReply(Ok200, ConvertToDto(RowOf(b)))
      case Err(e) =>
        if e.kind == AccessDenied then ErrorReply(Forbidden403, e.message)
        else if e.kind == IllegalArgument then EmptyReply(NotFound404)
        else ErrorReply(InternalServerError500, "Failed fetch")
  }

  /**
   * A booking's details reach exactly the callers who may cancel it;
   * anyone else who is signed in gets the server error.
   */
  lemma GetBookingByIdMeaning(store: BookingStore, users: map<string, User>, auth: Option<Authentication>, id: int)
    requires store.Valid()
    ensures GetBookingById(store, users, auth, id).status == Ok200 <==>
              !IsAnonymous(auth) && id in store.bookings && UpdateOutcome(auth, users, id, FoundRow(store, id), CANCELLED, None).Ok?
    ensures GetBookingById(store, users, auth, id).status == Ok200 ==> GetBookingById(store, users, auth, id).dto.id == Some(id)
    ensures !IsAnonymous(auth) && id !in store.bookings && Name(auth.value) in users ==>
              GetBookingById(store, users, auth, id) == EmptyReply(NotFound404)
  {
    FindBookingByIdWithAuthMeaning(store, users, auth, id);
    if id in store.bookings {
      ViewIffMayCancel(store, users, auth, id, None);
    }
  }

  // --------------------------------------------------------------- create

  /** `BookingRequestDTO`. */
  datatype BookingRequest = BookingRequest(propertyId: Option<int>, visitDate: Option<int>, visitTime: Option<int>,
                                           customerNotes: Option<string>)

  /** The bean-validation constraints: property, date and time present, the date today or later. */
  predicate ValidRequest(req: BookingRequest, today: int)
  {
    req.propertyId.Some? && req.visitDate.Some? && req.visitDate.value >= today && req.visitTime.Some?
  }

  /** The booking the controller hands to the service: the request's date, time and notes, nothing else. */
  function RequestDetails(req: BookingRequest): BookingData
  {
    BookingData(None, None, req.visitDate, req.visitTime, None, req.customerNotes, None, None, None, None)
  }

  const CreateFailed: string := "Failed to create booking request."

  /**
   * `createBookingRequest`: refused for an anonymous caller, 400 for an
   * invalid request, otherwise the service's booking as a 201 or its
   * exception through the catch blocks.
   */
  method CreateBookingRequest(bookings: BookingStore, properties: PropertyRepository.PropertyStore, users: UserRepository,
                              auth: Option<Authentication>, req: BookingRequest, today: int, now: int)
    returns (reply: Reply)
    requires bookings.Valid() && users.Valid()
    modifies bookings
    ensures bookings.Valid()
    ensures IsAnonymous(auth) || !ValidRequest(req, today) ==>
              && reply == EmptyReply(if IsAnonymous(auth) then Forbidden403 else BadRequest400)
              && bookings.bookings == old(bookings.bookings) && bookings.nextId == old(bookings.nextId)
    ensures !IsAnonymous(auth) && ValidRequest(req, today) ==>
              match CreateCheck(auth, users.byEmail, req.propertyId, properties.properties.Keys)
              case Err(e) =>
                && reply == ErrorOf(e, CreateFailed)
                && bookings.bookings == old(bookings.bookings) && bookings.nextId == old(bookings.nextId)
              case Ok(customer) =>
                && old(bookings.nextId) in bookings.bookings
                && var b := bookings.bookings[old(bookings.nextId)];
                   && bookings.bookings == old(bookings.bookings)[old(bookings.nextId) := b]
                   && b.Data() == NewBooking(customer, RequestDetails(req), old(bookings.nextId), now)
                   && b.property == properties.properties[req.propertyId.value]
                   && reply == DtoReply(Created201, ConvertToDto(RowOf(b)))
  {
    if IsAnonymous(auth) {
      return EmptyReply(Forbidden403);
    }
    if !ValidRequest(req, today) {
      return EmptyReply(BadRequest400);
    }
    var details := new Booking();
    details.SetVisitDate(req.visitDate);
    details.SetVisitTime(req.visitTime);
    details.SetCustomerNotes(req.customerNotes);
    assert details.Data() == RequestDetails(req);
    var created := CreateBooking(bookings, properties, users, auth, req.propertyId, details, now);
    match created {
      case Ok(b) => reply := DtoReply(Created201, ConvertToDto(RowOf(b)));
      case Err(e) => reply := ErrorOf(e, CreateFailed);
    }
  }

  // --------------------------------------------------------------- update

  const UpdateFailed: string := "Update failed."

  /**
   * `updateBookingStatus`: refused for an anonymous caller, 400 without a
   * new status, otherwise the service's outcome as a 200 with the DTO or
   * through the catch blocks.
   */
  method UpdateBookingStatusEndpoint(store: BookingStore, users: UserRepository, auth: Option<Authentication>, id: int,
                                     newStatus: Option<BookingStatus>, notes: Option<string>, now: int)
    returns (reply: Reply)
    requires store.Valid() && users.Valid()
    modifies store, if id in store.bookings then {store.bookings[id]} else {}
    ensures store.Valid()
    ensures store.bookings == old(store.bookings) && store.nextId == old(store.nextId)
    ensures IsAnonymous(auth) || newStatus.None? ==>
              && reply == EmptyReply(if IsAnonymous(auth) then Forbidden403 else BadRequest400)
              && (id in store.bookings ==> store.bookings[id].Data() == old(store.bookings[id].Data()))
    ensures !IsAnonymous(auth) && newStatus.Some? ==>
              match old(UpdateOutcome(auth, users.byEmail, id, FoundRow(store, id), newStatus.value, notes))
              case Err(e) =>
                && reply == ErrorOf(e, UpdateFailed)
                && (id in store.bookings ==> store.bookings[id].Data() == old(store.bookings[id].Data()))
              case Ok(d) =>
                && id in store.bookings
                && store.bookings[id].Data() == BookingEntity.Updated(d, now)
                && reply == DtoReply(Ok200, ConvertToDto(RowOf(store.bookings[id])))
  {
    if IsAnonymous(auth) {
      return EmptyReply(Forbidden403);
    }
    if newStatus.None? {
      return EmptyReply(BadRequest400);
    }
    var updated := UpdateBookingStatus(store, users, auth, id, newStatus.value, notes, now);
    match updated {
      case Ok(b) => reply := DtoReply(Ok200, ConvertToDto(RowOf(b)));
      case Err(e) => reply := ErrorOf(e, UpdateFailed);
    }
  }
}
