// BookingService: creating a visit request, changing a booking's status
// (who may set which status, and which notes field each change writes), and
// the permission-checked reads.
module BookingService {
  import opened Wrappers
  import opened JavaStrings
  import opened Errors
  import opened Security
  import opened Users
  import PropertyEntity
  import opened BookingEntity
  import opened BookingRepository
  import PropertyRepository

  const AdminRole: string := "ADMIN"

  // The messages of the exceptions the service throws, and the prefixes of the cancellation notes.
  const ConfirmRejectDenied: string := "Only the property owner or admin can confirm/reject bookings."
  const CancelDenied: string := "User does not have permission to cancel this booking."
  const CompleteDenied: string := "Only the property owner or admin can mark bookings as completed."
  const ResetDenied: string := "Only an admin can reset a booking to PENDING."
  const AuthenticationRequired: string := "Authentication required."
  const BookingNotFound: string := "Booking not found with ID: "
  const CancelledByCustomer: string := "Cancelled by customer: "
  const CancelledByOwnerOrAdmin: string := "Cancelled by owner/admin: "
  const CurrentUserNotFound: string := "Current user not found: "
  const CustomerNotFound: string := "Customer not found: "
  const OwnerNotFound: string := "Owner not found: "
  const PropertyNotFound: string := "Property not found with ID: "
  const NullId: string := "The given id must not be null"
  const ViewAllDenied: string := "User does not have permission to view all bookings."
  const ViewDenied: string := "User does not have permission to view this booking."
  const LoginRequired: string := "User must be logged in to create a booking."

  /** How the caller stands to a booking: `role.equals("ADMIN")`, owner of its property, its customer. */
  datatype Relation = Relation(isAdmin: bool, isOwner: bool, isCustomer: bool)

  datatype Actor = Admin | Owner | Customer

  predicate Plays(a: Actor, rel: Relation)
  {
    match a
    case Admin => rel.isAdmin
    case Owner => rel.isOwner
    case Customer => rel.isCustomer
  }

  /** The permission table the switch implements: who may move a booking to each target status. */
  function AllowedActors(s: BookingStatus): set<Actor>
  {
    match s
    case CONFIRMED => {Owner, Admin}
    case REJECTED => {Owner, Admin}
    case COMPLETED => {Owner, Admin}
    case CANCELLED => {Customer, Owner, Admin}
    case PENDING => {Admin}
  }

  /** Which notes field a permitted change writes, and with what. */
  datatype NotesChange = NotesUnchanged | SetOwnerAgentNotes(v: Option<string>) | SetCustomerNotes(v: Option<string>)

  /**
   * The switch of `updateBookingStatus`: it looks only at the target status
   * and the caller's relation, never at the current status.
   */
  function StatusChange(newStatus: BookingStatus, notes: Option<string>, rel: Relation): Result<NotesChange, Exception>
  {
    match newStatus
    case CONFIRMED | REJECTED =>
      if !rel.isOwner && !rel.isAdmin then
        Err(Exception(SecurityException, ConfirmRejectDenied))
      else Ok(SetOwnerAgentNotes(notes))
    case CANCELLED =>
      if !rel.isCustomer && !rel.isOwner && !rel.isAdmin then
        Err(Exception(SecurityException, CancelDenied))
      else if rel.isCustomer then Ok(SetCustomerNotes(Some(Concat(CancelledByCustomer, notes))))
      else Ok(SetOwnerAgentNotes(Some(Concat(CancelledByOwnerOrAdmin, notes))))
    case COMPLETED =>
      if !rel.isOwner && !rel.isAdmin then
        Err(Exception(SecurityException, CompleteDenied))
      else Ok(SetOwnerAgentNotes(notes))
    case PENDING =>
      if !rel.isAdmin then Err(Exception(SecurityException, ResetDenied))
      else Ok(NotesUnchanged)
  }

  /** The table in words: an admin may set anything, an owner anything but PENDING, a customer only CANCELLED. */
  lemma AllowedActorsMeaning(s: BookingStatus, rel: Relation)
    ensures (exists a :: a in AllowedActors(s) && Plays(a, rel)) <==>
            rel.isAdmin || (s != PENDING && rel.isOwner) || (s == CANCELLED && rel.isCustomer)
  {
    if rel.isAdmin || (s != PENDING && rel.isOwner) || (s == CANCELLED && rel.isCustomer) {
      var a := if rel.isAdmin then Admin else if rel.isOwner then Owner else Customer;
      assert a in AllowedActors(s) && Plays(a, rel);
    } else {
      forall a | a in AllowedActors(s) ensures !Plays(a, rel) {
      }
    }
  }

  /** A change is permitted exactly when the caller plays a part the permission table allows; a refusal is a SecurityException. */
  lemma StatusChangeFollowsTable(newStatus: BookingStatus, notes: Option<string>, rel: Relation)
    ensures StatusChange(newStatus, notes, rel).Ok? <==> exists a :: a in AllowedActors(newStatus) && Plays(a, rel)
    ensures StatusChange(newStatus, notes, rel).Err? ==> StatusChange(newStatus, notes, rel).error.kind == SecurityException
  {
    AllowedActorsMeaning(newStatus, rel);
  }

  /** CONFIRMED and REJECTED: owner or admin only, and ownerAgentNotes becomes the notes. */
  lemma ConfirmOrReject(newStatus: BookingStatus, notes: Option<string>, rel: Relation)
    requires newStatus == CONFIRMED || newStatus == REJECTED
    ensures StatusChange(newStatus, notes, rel).Ok? <==> rel.isOwner || rel.isAdmin
    ensures StatusChange(newStatus, notes, rel).Ok? ==> StatusChange(newStatus, notes, rel).value == SetOwnerAgentNotes(notes)
  {
  }

  /** CANCELLED: customer, owner or admin; a customer's note goes to customerNotes, anyone else's to ownerAgentNotes. */
  lemma Cancel(notes: Option<string>, rel: Relation)
    ensures StatusChange(CANCELLED, notes, rel).Ok? <==> rel.isCustomer || rel.isOwner || rel.isAdmin
    ensures rel.isCustomer ==>
              StatusChange(CANCELLED, notes, rel) == Ok(SetCustomerNotes(Some(Concat(CancelledByCustomer, notes))))
    ensures !rel.isCustomer && (rel.isOwner || rel.isAdmin) ==>
              StatusChange(CANCELLED, notes, rel) == Ok(SetOwnerAgentNotes(Some(Concat(CancelledByOwnerOrAdmin, notes))))
  {
  }

  /** COMPLETED: owner or admin with ownerAgentNotes set; PENDING: admin only, with no notes written. */
  lemma CompleteOrReset(notes: Option<string>, rel: Relation)
    ensures StatusChange(COMPLETED, notes, rel).Ok? <==> rel.isOwner || rel.isAdmin
    ensures StatusChange(COMPLETED, notes, rel).Ok? ==> StatusChange(COMPLETED, notes, rel).value == SetOwnerAgentNotes(notes)
    ensures rel.isAdmin ==> StatusChange(PENDING, notes, rel) == Ok(NotesUnchanged)
    ensures StatusChange(PENDING, notes, rel).Ok? <==> rel.isAdmin
  {
  }

  /** A caller whose only tie is being the customer can cancel and nothing else. */
  lemma CustomerCanOnlyCancel(s: BookingStatus, notes: Option<string>)
    ensures StatusChange(s, notes, Relation(false, false, true)).Ok? <==> s == CANCELLED
  {
    StatusChangeFollowsTable(s, notes, Relation(false, false, true));
  }

  /** The booking's fields after a permitted change: the notes the change names, and the target status. */
  function Applied(b: BookingData, newStatus: BookingStatus, c: NotesChange): BookingData
  {
    var withNotes := match c
      case NotesUnchanged => b
      case SetOwnerAgentNotes(v) => b.(ownerAgentNotes := v)
      case SetCustomerNotes(v) => b.(customerNotes := v);
    withNotes.(status := Some(newStatus))
  }

  /**
   * The three booleans of the service, in its evaluation order: the role,
   * then property and owner, then customer; a null on the way is a
   * NullPointerException.
   */
  function CallerRelation(caller: User, row: Row): Result<Relation, Exception>
  {
    if caller.role.None? then Err(Exception(NullPointer, "role"))
    else if row.property.None? then Err(Exception(NullPointer, "property"))
    else if row.property.value.owner.None? then Err(Exception(NullPointer, "owner"))
    else if row.booking.customer.None? then Err(Exception(NullPointer, "customer"))
    else Ok(Relation(caller.role.value == AdminRole,
                     SameUser(row.property.value.owner.value, caller),
                     SameUser(row.booking.customer.value, caller)))
  }

  /** The caller as a stored user: anonymous is a SecurityException, an unknown name a UsernameNotFoundException. */
  function CurrentUser(auth: Option<Authentication>, users: map<string, User>, notFound: string): Result<User, Exception>
  {
    match CurrentUsername(auth)
    case None => Err(Exception(SecurityException, AuthenticationRequired))
    case Some(email) =>
      if email in users then Ok(users[email])
      else Err(Exception(UsernameNotFound, notFound + email))
  }

  /** What `updateBookingStatus` decides for the booking found, or not found, under `bookingId`. */
  function UpdateOutcome(auth: Option<Authentication>, users: map<string, User>, bookingId: int, found: Option<Row>,
                         newStatus: BookingStatus, notes: Option<string>): Result<BookingData, Exception>
  {
    if found.None? then Err(Exception(IllegalArgument, BookingNotFound + IntToString(bookingId)))
    else
      match CurrentUser(auth, users, CurrentUserNotFound)
      case Err(e) => Err(e)
      case Ok(caller) =>
        match CallerRelation(caller, found.value)
        case Err(e) => Err(e)
        case Ok(rel) =>
          match StatusChange(newStatus, notes, rel)
          case Err(e) => Err(e)
          case Ok(c) => Ok(Applied(found.value.booking, newStatus, c))
  }

  /** A permitted update sets the target status whatever the status was, and touches only the status and notes. */
  lemma UpdateSetsStatus(auth: Option<Authentication>, users: map<string, User>, bookingId: int, found: Option<Row>,
                         newStatus: BookingStatus, notes: Option<string>)
    requires UpdateOutcome(auth, users, bookingId, found, newStatus, notes).Ok?
    ensures found.Some?
    ensures var d := UpdateOutcome(auth, users, bookingId, found, newStatus, notes).value;
            && d.status == Some(newStatus)
            && d.(status := found.value.booking.status, customerNotes := found.value.booking.customerNotes,
                  ownerAgentNotes := found.value.booking.ownerAgentNotes) == found.value.booking
  {
  }

  /** The decision does not depend on the booking's current status: any previous status gives the same outcome. */
  lemma UpdateIgnoresCurrentStatus(auth: Option<Authentication>, users: map<string, User>, bookingId: int, row: Row,
                                   other: Option<BookingStatus>, newStatus: BookingStatus, notes: Option<string>)
    ensures UpdateOutcome(auth, users, bookingId, Some(row), newStatus, notes)
         == UpdateOutcome(auth, users, bookingId, Some(row.(booking := row.booking.(status := other))), newStatus, notes)
  {
    var row' := row.(booking := row.booking.(status := other));
    match CurrentUser(auth, users, CurrentUserNotFound)
    case Err(_) =>
    case Ok(caller) =>
      assert CallerRelation(caller, row) == CallerRelation(caller, row');
      match CallerRelation(caller, row)
      case Err(_) =>
      case Ok(rel) =>
        match StatusChange(newStatus, notes, rel)
        case Err(_) =>
        case Ok(c) =>
          assert Applied(row.booking, newStatus, c) == Applied(row'.booking, newStatus, c);
  }

  /** The row stored under `id`, as the lookup at the start of the service sees it. */
  function FoundRow(store: BookingStore, id: int): Option<Row>
    reads store, store.bookings.Values, store.PropertyRefs()
  {
    if id in store.bookings then Some(RowOf(store.bookings[id])) else None
  }

  /**
   * `updateBookingStatus`: finds the booking, checks the caller, writes the
   * notes and the status through the setters and saves. A refused change
   * leaves the booking as it was.
   */
  method UpdateBookingStatus(store: BookingStore, users: UserRepository, auth: Option<Authentication>,
                             bookingId: int, newStatus: BookingStatus, notes: Option<string>, now: int)
    returns (r: Result<Booking, Exception>)
    requires store.Valid() && users.Valid()
    modifies store, if bookingId in store.bookings then {store.bookings[bookingId]} else {}
    ensures store.Valid()
    ensures store.bookings == old(store.bookings) && store.nextId == old(store.nextId)
    ensures var outcome := old(UpdateOutcome(auth, users.byEmail, bookingId, FoundRow(store, bookingId), newStatus, notes));
            match outcome
            case Err(e) =>
              && r == Err(e)
              && (bookingId in store.bookings ==> store.bookings[bookingId].Data() == old(store.bookings[bookingId].Data()))
            case Ok(d) =>
              && bookingId in store.bookings
              && r == Ok(store.bookings[bookingId])
              && store.bookings[bookingId].Data() == BookingEntity.Updated(d, now)
    ensures bookingId in store.bookings ==> store.bookings[bookingId].property == old(store.bookings[bookingId].property)
  {
    var found := store.FindById(bookingId);
    if found.None? {
      return Err(Exception(IllegalArgument, BookingNotFound + IntToString(bookingId)));
    }
    var booking := found.value;
    var current := CurrentUser(auth, users.byEmail, CurrentUserNotFound);
    if current.Err? {
      return Err(current.error);
    }
    var rel := CallerRelation(current.value, RowOf(booking));
    if rel.Err? {
      return Err(rel.error);
    }
    var change := StatusChange(newStatus, notes, rel.value);
    if change.Err? {
      return Err(change.error);
    }
    r := Commit(store, booking, newStatus, change.value, now);
  }

  /** A permitted change on a stored booking: the setters, then `save`, which writes the instance back after `onUpdate`. */
  method Commit(store: BookingStore, booking: Booking, newStatus: BookingStatus, c: NotesChange, now: int)
    returns (r: Result<Booking, Exception>)
    requires store.Valid() && store.Stores(booking)
    modifies store, booking
    ensures store.Valid()
    ensures store.bookings == old(store.bookings) && store.nextId == old(store.nextId)
    ensures r == Ok(booking)
    ensures booking.Data() == BookingEntity.Updated(Applied(old(booking.Data()), newStatus, c), now)
    ensures booking.property == old(booking.property)
  {
    ApplyChange(booking, newStatus, c);
    r := store.Save(booking, now);
  }

  /** The setter calls of a permitted change: the notes it names, then the target status. */
  method ApplyChange(booking: Booking, newStatus: BookingStatus, c: NotesChange)
    modifies booking`status, booking`customerNotes, booking`ownerAgentNotes
    ensures booking.Data() == Applied(old(booking.Data()), newStatus, c)
  {
    match c {
      case NotesUnchanged =>
      case SetOwnerAgentNotes(v) => booking.SetOwnerAgentNotes(v);
      case SetCustomerNotes(v) => booking.SetCustomerNotes(v);
    }
    booking.SetStatus(Some(newStatus));
  }

  /** The checks `createBooking` makes before it builds the booking, in order; the customer on success. */
  function CreateCheck(auth: Option<Authentication>, users: map<string, User>, propertyId: Option<int>, known: set<int>)
    : Result<User, Exception>
  {
    match CurrentUsername(auth)
    case None => Err(Exception(SecurityException, LoginRequired))
    case Some(email) =>
      if email !in users then Err(Exception(UsernameNotFound, CustomerNotFound + email))
      // Spring Data refuses a null id with an IllegalArgumentException, which the
      // repository proxy translates into an InvalidDataAccessApiUsageException.
      else if propertyId.None? then Err(Exception(Persistence, NullId))
      else if propertyId.value !in known then
        Err(Exception(IllegalArgument, PropertyNotFound + IntToString(propertyId.value)))
      else Ok(users[email])
  }

  /** The fields of the booking `createBooking` stores under `id`: the customer and three request fields, then `onCreate`. */
  function NewBooking(customer: User, request: BookingData, id: int, now: int): BookingData
  {
    BookingEntity.Created(BookingData(None, Some(customer), request.visitDate, request.visitTime, None,
                                      request.customerNotes, None, None, None, None), now).(id := Some(id))
  }

  /**
   * A new booking is PENDING with payment "PENDING", whatever status, notes
   * or payment state the request carried; only the visit date, time and
   * customer notes come from the request.
   */
  lemma NewBookingIsPending(customer: User, request: BookingData, id: int, now: int)
    ensures var d := NewBooking(customer, request, id, now);
            && d.status == Some(PENDING) && d.paymentStatus == Some(DefaultPaymentStatus)
            && d.ownerAgentNotes.None? && d.updatedAt.None? && d.createdAt == Some(now) && d.id == Some(id)
            && d.customer == Some(customer)
            && d.visitDate == request.visitDate && d.visitTime == request.visitTime && d.customerNotes == request.customerNotes
    ensures forall other: BookingData ::
              other.visitDate == request.visitDate && other.visitTime == request.visitTime && other.customerNotes == request.customerNotes
              ==> NewBooking(customer, other, id, now) == NewBooking(customer, request, id, now)
  {
  }

  /** `createBooking`: the booking is built from the caller and the request and inserted under the next id. */
  method CreateBooking(bookings: BookingStore, properties: PropertyRepository.PropertyStore, users: UserRepository, auth: Option<Authentication>,
                       propertyId: Option<int>, request: Booking, now: int)
    returns (r: Result<Booking, Exception>)
    requires bookings.Valid() && users.Valid()
    modifies bookings
    ensures bookings.Valid()
    ensures match CreateCheck(auth, users.byEmail, propertyId, properties.properties.Keys)
            case Err(e) =>
              && r == Err(e)
              && bookings.bookings == old(bookings.bookings) && bookings.nextId == old(bookings.nextId)
            case Ok(customer) =>
              && r.Ok? && fresh(r.value)
              && r.value.property == properties.properties[propertyId.value]
              && r.value.Data() == NewBooking(customer, request.Data(), old(bookings.nextId), now)
              && bookings.bookings == old(bookings.bookings)[old(bookings.nextId) := r.value]
              && bookings.nextId == old(bookings.nextId) + 1
  {
    var email := CurrentUsername(auth);
    if email.None? {
      return Err(Exception(SecurityException, LoginRequired));
    }
    var customer := users.FindByEmail(email.value);
    if customer.None? {
      return Err(Exception(UsernameNotFound, CustomerNotFound + email.value));
    }
    if propertyId.None? {
      return Err(Exception(Persistence, NullId));
    }
    var property := properties.FindById(propertyId.value);
    if property.None? {
      return Err(Exception(IllegalArgument, PropertyNotFound + IntToString(propertyId.value)));
    }
    var booking := new Booking();
    booking.SetCustomer(Some(customer.value));
    booking.SetProperty(property.value);
    booking.SetVisitDate(request.visitDate);
    booking.SetVisitTime(request.visitTime);
    booking.SetCustomerNotes(request.customerNotes);
    r := bookings.Save(booking, now);
  }

  /**
   * `findBookingByIdWithAuth`: the caller is looked up first; a missing
   * booking is empty; a found one is returned to its admin, owner or
   * customer and refused to anyone else.
   */
  function FindBookingByIdWithAuth(store: BookingStore, users: map<string, User>, auth: Option<Authentication>, id: int)
    : Result<Option<Booking>, Exception>
    reads store, store.bookings.Values, store.PropertyRefs()
  {
    match CurrentUser(auth, users, CurrentUserNotFound)
    case Err(e) => Err(e)
    case Ok(caller) =>
      match FoundRow(store, id)
      case None => Ok(None)
      case Some(row) =>
        match CallerRelation(caller, row)
        case Err(e) => Err(e)
        case Ok(rel) =>
          if rel.isAdmin || rel.isOwner || rel.isCustomer then Ok(Some(store.bookings[id]))
          else Err(Exception(SecurityException, ViewDenied))
  }

  /**
   * Whoever may view a booking may cancel it and the other way round:
   * the read check and the CANCELLED row of the permission table agree.
   */
  lemma ViewIffMayCancel(store: BookingStore, users: map<string, User>, auth: Option<Authentication>, id: int, notes: Option<string>)
    requires id in store.bookings
    ensures FindBookingByIdWithAuth(store, users, auth, id).Ok? <==>
              UpdateOutcome(auth, users, id, FoundRow(store, id), CANCELLED, notes).Ok?
    ensures FindBookingByIdWithAuth(store, users, auth, id).Ok? ==>
              FindBookingByIdWithAuth(store, users, auth, id).value == Some(store.bookings[id])
  {
  }

  /** The lookup by id never returns a booking other than the one stored under that id, and only to a known caller. */
  lemma FindBookingByIdWithAuthMeaning(store: BookingStore, users: map<string, User>, auth: Option<Authentication>, id: int)
    ensures FindBookingByIdWithAuth(store, users, auth, id) == Ok(None) <==>
              CurrentUser(auth, users, CurrentUserNotFound).Ok? && id !in store.bookings
    ensures FindBookingByIdWithAuth(store, users, auth, id).Ok? && FindBookingByIdWithAuth(store, users, auth, id).value.Some? ==>
              && id in store.bookings
              && FindBookingByIdWithAuth(store, users, auth, id).value.value == store.bookings[id]
              && var caller := CurrentUser(auth, users, CurrentUserNotFound).value;
                 var rel := CallerRelation(caller, RowOf(store.bookings[id]));
                 rel.Ok? && (rel.value.isAdmin || rel.value.isOwner || rel.value.isCustomer)
    ensures IsAnonymous(auth) ==> FindBookingByIdWithAuth(store, users, auth, id) == Err(Exception(SecurityException, AuthenticationRequired))
  {
  }

  /** `findMyBookingsAsCustomer`: the stored bookings whose customer is the caller. */
  function FindMyBookingsAsCustomer(store: BookingStore, users: map<string, User>, auth: Option<Authentication>)
    : Result<seq<Booking>, Exception>
    reads store, store.bookings.Values, store.PropertyRefs()
  {
    match CurrentUser(auth, users, CustomerNotFound)
    case Err(e) => Err(e)
    case Ok(u) => Ok(store.FindByCustomer(u))
  }

  /** `findMyBookingsAsOwner`: the stored bookings on properties the caller owns. */
  function FindMyBookingsAsOwner(store: BookingStore, users: map<string, User>, auth: Option<Authentication>)
    : Result<seq<Booking>, Exception>
    reads store, store.bookings.Values, store.PropertyRefs()
  {
    match CurrentUser(auth, users, OwnerNotFound)
    case Err(e) => Err(e)
    case Ok(u) => Ok(store.FindByPropertyOwner(u))
  }

  /** The caller's own bookings: exactly the stored ones whose customer, or whose property's owner, has the caller's id. */
  lemma FindMyBookingsMeaning(store: BookingStore, users: map<string, User>, auth: Option<Authentication>)
    requires store.Valid()
    ensures FindMyBookingsAsCustomer(store, users, auth).Ok? <==> !IsAnonymous(auth) && Name(auth.value) in users
    ensures FindMyBookingsAsOwner(store, users, auth).Ok? <==> !IsAnonymous(auth) && Name(auth.value) in users
    ensures FindMyBookingsAsCustomer(store, users, auth).Ok? ==>
              var me := users[Name(auth.value)];
              forall b :: b in FindMyBookingsAsCustomer(store, users, auth).value <==>
                store.Stores(b) && b.customer.Some? && b.customer.value.id == me.id
    ensures FindMyBookingsAsOwner(store, users, auth).Ok? ==>
              var me := users[Name(auth.value)];
              forall b :: b in FindMyBookingsAsOwner(store, users, auth).value <==>
                store.Stores(b) && b.property != null && b.property.owner.Some? && b.property.owner.value.id == me.id
  {
    if !IsAnonymous(auth) && Name(auth.value) in users {
      store.FindByCustomerMeaning(users[Name(auth.value)]);
      store.FindByPropertyOwnerMeaning(users[Name(auth.value)]);
    }
  }

  /** `findAllBookingsAdmin`: every booking, for a caller whose stored role is exactly "ADMIN". */
  function FindAllBookingsAdmin(store: BookingStore, users: map<string, User>, auth: Option<Authentication>)
    : Result<seq<Booking>, Exception>
    reads store, store.bookings.Values, store.PropertyRefs()
  {
    match CurrentUser(auth, users, CurrentUserNotFound)
    case Err(e) => Err(e)
    case Ok(u) =>
      if u.role.None? then Err(Exception(NullPointer, "role"))
      else if u.role.value != AdminRole then
        Err(Exception(SecurityException, ViewAllDenied))
      else Ok(store.FindAll())
  }

  /** Only a stored admin sees the list, and the list is then every stored booking. */
  lemma FindAllBookingsAdminMeaning(store: BookingStore, users: map<string, User>, auth: Option<Authentication>)
    requires store.Valid()
    ensures FindAllBookingsAdmin(store, users, auth).Ok? <==>
              !IsAnonymous(auth) && Name(auth.value) in users && users[Name(auth.value)].role == Some(AdminRole)
    ensures FindAllBookingsAdmin(store, users, auth).Ok? ==>
              forall b :: b in FindAllBookingsAdmin(store, users, auth).value <==> store.Stores(b)
  {
    store.ListingIsFilter(_ => true);
  }
}
