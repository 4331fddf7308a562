# Real-estate booking backend: a verified model

This project models, in Dafny, the decision and lifecycle logic of a
Spring Boot real-estate booking service and two React components of its
front end.

- **Booking**: a customer asks to visit a property at a date and time. The
  property's owner or an admin confirms, rejects or completes the visit.
  The customer, the owner or an admin may cancel it. Only an admin may
  set it back to PENDING. Each change writes the caller's notes to the
  notes field that belongs to the caller's part. A booking's payment can
  be confirmed by hand.
- **Properties**: the caller who creates a property becomes its owner.
  The owner edits a fixed set of fields. The owner uploads images, whose
  file names are appended to a comma-separated `imageUrls` text. Owners
  (not admins) may change their own properties; admins may list and
  delete any property.
- **Identity**: users register with a role other than ADMIN and log in
  with e-mail and password for a bearer token. A filter turns a valid token into the
  request's authentication. An ordered table of route rules decides which
  requests need an identity or the ADMIN authority.
- **Edges**: controllers map service outcomes and exceptions to HTTP
  status codes and build DTOs with fallbacks. The entities default their
  status and timestamps on first save. The repositories' queries are
  modelled as filters and orderings over the stored entities. Uploaded
  file names and public contact-form messages are validated.
- **Front end**: the property card derives its first image URL from
  `imageUrls`, reading back what the upload endpoint writes. The booking
  form validates the visit date and time before it posts a request.

Entities the services update in place (`Booking`, `Property`,
`ContactMessage`) are classes with setters. Repositories are classes
holding a `map` from id to entity. Users are values in a repository keyed
by e-mail. The caller's authentication is an explicit parameter, not a
thread-bound context. Service results use a `Result` datatype whose error
is the Java exception class and message. Every module follows one source
file; shared vocabulary (`Wrappers`, `Errors`, `Security`, `JavaStrings`,
`Text`, `Users`) has its own module.

Services the code calls but whose bodies are not shown are parameters of
the members that call them. These are JWT issue and validation, the
password encoder, UUID generation, `checkBookingOwnershipOrAdmin`,
`updatePaymentStatus` and `getAmenities`. The clock is a parameter too.

## Model

| member | source | states |
|---|---|---|
| BookingEntity.Created | src/main/java/com/example/demo/model/Booking.java:66-81 | creation stamps createdAt, defaults a null status to PENDING and a null payment status to "PENDING", and leaves every other field and every value already set unchanged |
| BookingEntity.Updated | src/main/java/com/example/demo/model/Booking.java:83-86 | an update stamps updatedAt and changes nothing else |
| BookingEntity.Merged | src/main/java/com/example/demo/model/Booking.java:58-59 | what merge writes onto a stored booking: every incoming field, except that the row keeps its id and its creation time, whose column is not updatable |
| BookingEntity.Booking.constructor | src/main/java/com/example/demo/model/Booking.java:92 | a new booking has every field null |
| BookingEntity.Booking.OnCreate | src/main/java/com/example/demo/model/Booking.java:66-81 | the entity's new value is Created of its old value |
| BookingEntity.Booking.OnUpdate | src/main/java/com/example/demo/model/Booking.java:83-86 | the entity's new value is Updated of its old value |
| BookingEntity.Booking.CopyFrom | src/main/java/com/example/demo/model/Booking.java:25-62 | after the field-by-field copy the booking holds exactly the given value and property reference |
| BookingEntity.Booking.SetId | src/main/java/com/example/demo/model/Booking.java:112 | only the id changes |
| BookingEntity.Booking.SetProperty | src/main/java/com/example/demo/model/Booking.java:115 | only the property reference changes |
| BookingEntity.Booking.SetCustomer | src/main/java/com/example/demo/model/Booking.java:118 | only the customer changes |
| BookingEntity.Booking.SetVisitDate | src/main/java/com/example/demo/model/Booking.java:121 | only the visit date changes |
| BookingEntity.Booking.SetVisitTime | src/main/java/com/example/demo/model/Booking.java:124 | only the visit time changes |
| BookingEntity.Booking.SetStatus | src/main/java/com/example/demo/model/Booking.java:127 | only the status changes |
| BookingEntity.Booking.SetCustomerNotes | src/main/java/com/example/demo/model/Booking.java:130 | only the customer notes change |
| BookingEntity.Booking.SetOwnerAgentNotes | src/main/java/com/example/demo/model/Booking.java:133 | only the owner or agent notes change |
| BookingEntity.Booking.SetPaymentStatus | src/main/java/com/example/demo/model/Booking.java:145-147 | only the payment status changes |
| BookingEntity.Booking.SetCreatedAt | src/main/java/com/example/demo/model/Booking.java:136 | only createdAt changes |
| BookingEntity.Booking.SetUpdatedAt | src/main/java/com/example/demo/model/Booking.java:139 | only updatedAt changes |
| PropertyEntity.Created | src/main/java/com/example/demo/model/Property.java:50 | creation stamps createdAt, defaults a null status to AVAILABLE and leaves every other field unchanged |
| PropertyEntity.Updated | src/main/java/com/example/demo/model/Property.java:51 | an update stamps updatedAt and changes nothing else |
| PropertyEntity.Merged | src/main/java/com/example/demo/model/Property.java:34 | what merge writes onto a stored row: every incoming field, except that the row keeps its id and its creation time, whose column is not updatable |
| PropertyEntity.Property.constructor | src/main/java/com/example/demo/model/Property.java:43 | a new property has every field null |
| PropertyEntity.Property.OnCreate | src/main/java/com/example/demo/model/Property.java:50 | the entity's new value is Created of its old value |
| PropertyEntity.Property.OnUpdate | src/main/java/com/example/demo/model/Property.java:51 | the entity's new value is Updated of its old value |
| PropertyEntity.Property.CopyFrom | src/main/java/com/example/demo/model/Property.java:45-46 | after the field-by-field copy the entity holds exactly the given value |
| PropertyEntity.Property.SetId | src/main/java/com/example/demo/model/Property.java:55 | only the id changes |
| PropertyEntity.Property.SetAddress | src/main/java/com/example/demo/model/Property.java:57 | only the address changes |
| PropertyEntity.Property.SetCity | src/main/java/com/example/demo/model/Property.java:59 | only the city changes |
| PropertyEntity.Property.SetState | src/main/java/com/example/demo/model/Property.java:61 | only the state changes |
| PropertyEntity.Property.SetPostalCode | src/main/java/com/example/demo/model/Property.java:63 | only the postal code changes |
| PropertyEntity.Property.SetPrice | src/main/java/com/example/demo/model/Property.java:65 | only the price changes |
| PropertyEntity.Property.SetBedrooms | src/main/java/com/example/demo/model/Property.java:67 | only the bedroom count changes |
| PropertyEntity.Property.SetBathrooms | src/main/java/com/example/demo/model/Property.java:69 | only the bathroom count changes |
| PropertyEntity.Property.SetAreaSqft | src/main/java/com/example/demo/model/Property.java:71 | only the area changes |
| PropertyEntity.Property.SetDescription | src/main/java/com/example/demo/model/Property.java:73 | only the description changes |
| PropertyEntity.Property.SetType | src/main/java/com/example/demo/model/Property.java:75 | only the type changes |
| PropertyEntity.Property.SetStatus | src/main/java/com/example/demo/model/Property.java:77 | only the status changes |
| PropertyEntity.Property.SetOwner | src/main/java/com/example/demo/model/Property.java:79 | only the owner changes |
| PropertyEntity.Property.SetCreatedAt | src/main/java/com/example/demo/model/Property.java:81 | only createdAt changes |
| PropertyEntity.Property.SetUpdatedAt | src/main/java/com/example/demo/model/Property.java:83 | only updatedAt changes |
| PropertyEntity.Property.SetImageUrls | src/main/java/com/example/demo/model/Property.java:85 | only the image URL list changes |
| PropertyRepository.NoCriteriaMatchesAll | src/main/java/com/example/demo/repository/PropertyRepository.java:68-77 | with every parameter null the criteria query keeps every property |
| PropertyRepository.PriceBoundsInclusive | src/main/java/com/example/demo/repository/PropertyRepository.java:72-73 | with only the two price parameters given, a property passes exactly when it has a price at least the minimum and at most the maximum |
| PropertyRepository.PropertyStore.constructor | src/main/java/com/example/demo/repository/PropertyRepository.java:22 | the properties table starts empty and consistent |
| PropertyRepository.PropertyStore.FindById | src/main/java/com/example/demo/repository/PropertyRepository.java:22 | a property is found exactly when one is stored under the id, and it is that stored instance |
| PropertyRepository.PropertyStore.Listing | src/main/java/com/example/demo/repository/PropertyRepository.java:22 | a query answers only stored instances |
| PropertyRepository.PropertyStore.ListingMembers | src/main/java/com/example/demo/repository/PropertyRepository.java:22 | a listing below an id holds exactly the stored properties below it that its filter accepts |
| PropertyRepository.PropertyStore.ListingAscending | src/main/java/com/example/demo/repository/PropertyRepository.java:22 | a listing holds ids below its bound, in strictly ascending order |
| PropertyRepository.PropertyStore.ListingSameFilter | src/main/java/com/example/demo/repository/PropertyRepository.java:22 | two filters that agree on every stored property give the same listing |
| PropertyRepository.PropertyStore.ListingIsFilter | src/main/java/com/example/demo/repository/PropertyRepository.java:22 | a query answers exactly the stored properties it accepts, each once |
| PropertyRepository.PropertyStore.FindByCriteriaMeaning | src/main/java/com/example/demo/repository/PropertyRepository.java:68-86 | the criteria query answers exactly the stored properties its WHERE clause accepts |
| PropertyRepository.PropertyStore.NoCriteriaIsFindAll | src/main/java/com/example/demo/repository/PropertyRepository.java:68-86 | all-null criteria return the same list as findAll |
| PropertyRepository.PropertyStore.FindByStatusMeaning | src/main/java/com/example/demo/repository/PropertyRepository.java:40 | findByStatus returns exactly the stored properties with that status |
| PropertyRepository.PropertyStore.FindByOwnerMeaning | src/main/java/com/example/demo/repository/PropertyRepository.java:31 | findByOwner returns exactly the stored properties whose owner has that user's id |
| PropertyRepository.PropertyStore.FindByCityAndStatusMeaning | src/main/java/com/example/demo/repository/PropertyRepository.java:50 | findByCityAndStatus returns exactly the stored properties with that exact city and status |
| PropertyRepository.PropertyStore.Save | src/main/java/com/example/demo/repository/PropertyRepository.java:22 | save and its commit: a property without id is inserted under the next id after creation stamping; the stored instance is updated in place; any other instance with an id is merged onto the row of that id, which keeps its id and creation time, and a fresh managed copy carrying every incoming field plus the update stamp is returned; an unknown id is inserted under the next id; a row that leaves a NOT NULL column empty, overruns the length of address (255), city (100), state (50) or postal code (20), or exceeds the precision of price or area fails with a persistence error and changes nothing; every stored row keeps its id and meets those constraints |
| PropertyRepository.PropertyStore.DeleteById | src/main/java/com/example/demo/model/Booking.java:28-30 | a stored property that a booking still references fails the foreign key with a persistence error and stays; otherwise the id is removed from the table and nothing else changes |
| BookingRepository.InsertDescending | src/main/java/com/example/demo/repository/BookingRepository.java:22 | inserting into a newest-first list keeps it newest first and adds exactly the one element |
| BookingRepository.SortDescending | src/main/java/com/example/demo/repository/BookingRepository.java:22 | ORDER BY createdAt DESC yields a newest-first permutation of its input |
| BookingRepository.Keyed | src/main/java/com/example/demo/repository/BookingRepository.java:22 | each booking is paired with its creation time, in order |
| BookingRepository.Unkeyed | src/main/java/com/example/demo/repository/BookingRepository.java:22 | dropping the keys keeps length and order |
| BookingRepository.RepeatCounts | src/main/java/com/example/demo/repository/BookingRepository.java:22 | a repeated element occurs at least twice in the multiset |
| BookingRepository.DistinctCounts | src/main/java/com/example/demo/repository/BookingRepository.java:22 | in a list without repeats every element occurs at most once |
| BookingRepository.SameMultisetDistinct | src/main/java/com/example/demo/repository/BookingRepository.java:22 | a permutation of a list without repeats has no repeats |
| BookingRepository.NewestFirstMeaning | src/main/java/com/example/demo/repository/BookingRepository.java:22 | ordering keeps exactly the same bookings, each once if each came once, with later creation times first |
| BookingRepository.SortedKeys | src/main/java/com/example/demo/repository/BookingRepository.java:22 | the sorted pairs are as many as the bookings and each carries its booking's creation time as its key |
| BookingRepository.NewestFirstSameMembers | src/main/java/com/example/demo/repository/BookingRepository.java:22 | ordering by creation time gives the same multiset of bookings, so it keeps every booking, adds none, and keeps each as often as it came |
| BookingRepository.NewestFirstDistinct | src/main/java/com/example/demo/repository/BookingRepository.java:22 | ordering a list without repeats gives a list without repeats |
| BookingRepository.BookingStore.constructor | src/main/java/com/example/demo/repository/BookingRepository.java:17 | the bookings table starts empty and consistent |
| BookingRepository.BookingStore.FindById | src/main/java/com/example/demo/repository/BookingRepository.java:17 | a booking is found exactly when one is stored under the id, and it is that stored instance |
| BookingRepository.BookingStore.Listing | src/main/java/com/example/demo/repository/BookingRepository.java:17 | a query answers only stored instances |
| BookingRepository.BookingStore.ListingMembers | src/main/java/com/example/demo/repository/BookingRepository.java:17 | a listing below an id holds exactly the stored bookings below it whose row its filter accepts |
| BookingRepository.BookingStore.ListingAscending | src/main/java/com/example/demo/repository/BookingRepository.java:17 | a listing holds ids below its bound and no booking twice |
| BookingRepository.BookingStore.ListingIsFilter | src/main/java/com/example/demo/repository/BookingRepository.java:17 | a query answers exactly the stored bookings it accepts, each once |
| BookingRepository.BookingStore.NewestListingIsFilter | src/main/java/com/example/demo/repository/BookingRepository.java:22-31 | an ordered query answers exactly the stored bookings it accepts, each once, newest first |
| BookingRepository.BookingStore.FindByCustomerMeaning | src/main/java/com/example/demo/repository/BookingRepository.java:41 | findByCustomer returns exactly the stored bookings of a customer with that user's id, each once |
| BookingRepository.BookingStore.FindByPropertyOwnerMeaning | src/main/java/com/example/demo/repository/BookingRepository.java:42 | findByPropertyOwner returns exactly the stored bookings on a property owned by that user's id, each once |
| BookingRepository.BookingStore.FindByPropertyAndStatusMeaning | src/main/java/com/example/demo/repository/BookingRepository.java:43-44 | findByProperty and findByStatus return exactly the stored bookings on that property, or with that status |
| BookingRepository.BookingStore.FindByPropertyAndVisitDateAndStatusInMeaning | src/main/java/com/example/demo/repository/BookingRepository.java:45 | returns exactly the stored bookings on that property, on that date, with a status in the list |
| BookingRepository.BookingStore.FindByIdAndUserMeaning | src/main/java/com/example/demo/repository/BookingRepository.java:46-47 | a booking is found by id and customer, or by id and property owner, exactly when it is stored under the id and that user is its customer, or its property's owner |
| BookingRepository.BookingStore.FindByCustomerWithDetailsMeaning | src/main/java/com/example/demo/repository/BookingRepository.java:22-23 | exactly the customer's stored bookings with a property, an owner and a customer, each once, newest first |
| BookingRepository.BookingStore.FindByPropertyOwnerWithDetailsMeaning | src/main/java/com/example/demo/repository/BookingRepository.java:26-27 | exactly the stored bookings with a customer on the owner's properties, each once, newest first |
| BookingRepository.BookingStore.FindAllWithDetailsMeaning | src/main/java/com/example/demo/repository/BookingRepository.java:30-31 | exactly the stored bookings that have a property, an owner and a customer, each once, newest first |
| BookingRepository.BookingStore.FindByIdWithDetailsMeaning | src/main/java/com/example/demo/repository/BookingRepository.java:34-35 | the booking is found exactly when it is stored under the id and fully joined, and it is the stored instance |
| BookingRepository.BookingStore.Save | src/main/java/com/example/demo/repository/BookingRepository.java:17 | a booking without id is inserted under the next id after creation stamping; the stored instance is updated in place; any other instance with an id is merged onto the booking of that id, keeping that row's id and creation time, and a fresh managed copy carrying every incoming field plus the update stamp is returned; an unknown id is inserted under the next id; the property reference goes with the fields |
| BookingService.StatusChangeFollowsTable | src/main/java/com/example/demo/service/BookingService.java:98-131 | a status change is permitted exactly when the caller plays a part the permission table allows for the target status, and every refusal is a SecurityException |
| BookingService.AllowedActorsMeaning | src/main/java/com/example/demo/service/BookingService.java:98-131 | some allowed actor for the target status is played by the caller exactly when the caller is an admin, or the owner for any target but PENDING, or the customer cancelling |
| BookingService.ConfirmOrReject | src/main/java/com/example/demo/service/BookingService.java:99-106 | CONFIRMED and REJECTED are permitted exactly to the owner or an admin, and write the notes to ownerAgentNotes |
| BookingService.Cancel | src/main/java/com/example/demo/service/BookingService.java:107-115 | CANCELLED is permitted exactly to the customer, the owner or an admin; a customer's note goes to customerNotes with its prefix, anyone else's to ownerAgentNotes with its prefix |
| BookingService.CompleteOrReset | src/main/java/com/example/demo/service/BookingService.java:116-128 | COMPLETED is permitted exactly to the owner or an admin and writes ownerAgentNotes; PENDING is permitted exactly to an admin and writes no notes |
| BookingService.CustomerCanOnlyCancel | src/main/java/com/example/demo/service/BookingService.java:98-131 | a caller who is only the customer may set CANCELLED and nothing else |
| BookingService.UpdateSetsStatus | src/main/java/com/example/demo/service/BookingService.java:81-141 | a permitted update finds the booking, sets the target status and changes nothing but the status and the notes |
| BookingService.UpdateIgnoresCurrentStatus | src/main/java/com/example/demo/service/BookingService.java:93-131 | the outcome does not depend on the booking's current status, so any status can move to any permitted target |
| BookingService.UpdateBookingStatus | src/main/java/com/example/demo/service/BookingService.java:81-141 | the table keeps its keys; a refusal returns the error and leaves the booking untouched; a permitted change leaves the stored booking with the decided fields plus the update stamp; the property reference is kept |
| BookingService.Commit | src/main/java/com/example/demo/service/BookingService.java:105-135 | a permitted change on a stored booking writes exactly the decided notes and the target status, then saves the stored instance, which keeps the table and stamps the update |
| BookingService.ApplyChange | src/main/java/com/example/demo/service/BookingService.java:105-134 | the booking gets the target status, and its customer notes or its owner/agent notes become the note the decided change names, with every other field as it was |
| BookingService.NewBookingIsPending | src/main/java/com/example/demo/service/BookingService.java:52-58 | a new booking is PENDING with payment "PENDING", belongs to the caller, and takes only visit date, time and customer notes from the request |
| BookingService.CreateBooking | src/main/java/com/example/demo/service/BookingService.java:40-68 | anonymous, unknown caller, null id and unknown property fail in that order and change nothing; the null id fails as a persistence error, since `findById(null)` reaches callers as a data-access exception, while an unknown property is an illegal argument; otherwise a fresh booking on that property is inserted under the next id |
| BookingService.ViewIffMayCancel | src/main/java/com/example/demo/service/BookingService.java:181-203 | whoever may view a stored booking may cancel it, and the other way round |
| BookingService.FindBookingByIdWithAuthMeaning | src/main/java/com/example/demo/service/BookingService.java:181-203 | empty exactly for a known caller and a missing id; a booking returned is the one stored under the id and the caller is its admin, owner or customer; an anonymous caller gets "Authentication required." |
| BookingService.FindMyBookingsMeaning | src/main/java/com/example/demo/service/BookingService.java:151-172 | a known caller gets exactly the stored bookings whose customer, or whose property's owner, has the caller's id; anyone else gets an error |
| BookingService.FindAllBookingsAdminMeaning | src/main/java/com/example/demo/service/BookingService.java:211-222 | the list is returned exactly to a stored user whose role is "ADMIN", and then holds every stored booking |
| PropertyService.FindPropertyById | src/main/java/com/example/demo/service/PropertyService.java:35-38 | a property is found exactly when one is stored under the id, and it is that stored instance |
| PropertyService.SearchPropertiesMeaning | src/main/java/com/example/demo/service/PropertyService.java:41-55 | a search answers exactly the stored AVAILABLE properties meeting the other filters; a blank city filters nothing; with no filter at all it answers the same properties as findAllAvailableProperties |
| PropertyService.FindAllPropertiesAdminMeaning | src/main/java/com/example/demo/service/PropertyService.java:58-61 | the admin listing holds every stored property |
| PropertyService.CreatedBelongsToCaller | src/main/java/com/example/demo/service/PropertyService.java:73-79 | a created property has the caller as owner, keeps a given status and is AVAILABLE otherwise, is stamped, and keeps every other input field |
| PropertyService.CreateProperty | src/main/java/com/example/demo/service/PropertyService.java:66-84 | anonymous and unknown callers fail with their exceptions and change nothing; otherwise the property, owned by the caller and defaulted to AVAILABLE, is saved: without an id it is inserted under the next id; with the id of another stored property it overwrites that property's fields and owner, keeping its id and creation time, and returns the managed copy, which carries the body's own fields, createdAt included; with an unknown id it is inserted under the next id; a row that breaks a NOT NULL, length or precision constraint fails with a persistence error and changes no stored property |
| PropertyService.TakeoverAsWritten | src/main/java/com/example/demo/service/PropertyService.java:73-81 | a body naming the id of a property owned by someone else ends with the caller as owner of that row and the body's fields in it, while the row keeps its id and creation time |
| PropertyService.CreateNewProperty | src/main/java/com/example/demo/service/PropertyService.java:66-84 | with the body's id discarded, a created property is always inserted under the next id, owned by the caller, and every property already stored keeps its instance and its fields; a row that breaks a column constraint fails and stores nothing |
| PropertyService.CopiedKeepsOwnerAndImages | src/main/java/com/example/demo/service/PropertyService.java:99-111 | an update takes the eleven general fields from the request and keeps id, owner, images and timestamps |
| PropertyService.UpdateProperty | src/main/java/com/example/demo/service/PropertyService.java:87-116 | empty exactly for an unknown id; otherwise, when the copied fields meet every NOT NULL, length and precision constraint, the stored property holds them plus the update stamp; when they do not, the commit fails with a persistence error and the property stays as it was; the table keeps its keys |
| PropertyService.UpdateImageUrls | src/main/java/com/example/demo/service/PropertyService.java:119-134 | an unknown id fails with IllegalArgument; otherwise only the image list and the update stamp change |
| PropertyService.DeleteProperty | src/main/java/com/example/demo/service/PropertyService.java:138-150 | false and no change for an unknown id; for a stored id that a booking references, a persistence error and no change; otherwise true, and only that id leaves the table |
| PropertyService.CheckOwnershipMeaning | src/main/java/com/example/demo/service/PropertyService.java:162-190 | true exactly for a known caller whose id is the owner id of a stored property; false for anonymous; an IllegalArgument for a missing property; the caller's authorities make no difference |
| PropertyService.VerifyOwnershipOrAdminMeaning | src/main/java/com/example/demo/service/PropertyService.java:193-240 | passes exactly for a known caller who owns the property or holds ROLE_ADMIN, when the owner id is known; a missing owner id is an IllegalStateException |
| PropertyService.OwnershipImpliesVerified | src/main/java/com/example/demo/service/PropertyService.java:162-240 | whoever passes checkOwnership also passes verifyOwnershipOrAdmin |
| PropertyService.AdminPassesOnlyVerified | src/main/java/com/example/demo/service/PropertyService.java:162-240 | an admin who is not the owner of a stored property with a known owner fails checkOwnership but passes verifyOwnershipOrAdmin |
| PropertyService.CreatorPassesCheckOwnership | src/main/java/com/example/demo/service/PropertyService.java:66-190 | right after creating a property the caller passes checkOwnership on it |
| Users.UserRepository.constructor | src/main/java/com/example/demo/controller/UserController.java:36 | the users table starts empty and consistent |
| Users.UserRepository.FindByEmail | src/main/java/com/example/demo/service/UserDetailsServiceImpl.java:47 | a user is found exactly when one is stored under that e-mail, and the user found carries that e-mail and an id |
| Users.UserRepository.Save | src/main/java/com/example/demo/controller/UserController.java:86 | a new e-mail stores the user under the next id and advances the counter; a taken e-mail fails and leaves the table as it was |
| Security.CurrentUsername | src/main/java/com/example/demo/service/PropertyService.java:243-249 | no name exactly for a missing, unauthenticated or "anonymousUser" authentication, and the authentication's name otherwise |
| Security.SecurityContext.constructor | src/main/java/com/example/demo/config/filter/JwtAuthenticationFilter.java:73 | a request starts with no authentication in its context |
| Security.SecurityContext.SetAuthentication | src/main/java/com/example/demo/config/filter/JwtAuthenticationFilter.java:94 | the context then holds exactly the given authentication |
| JavaStrings.TrimIsSlice | src/main/java/com/example/demo/dto/LoginRequest.java:13 | `trim` returns a slice of its input whose removed ends are all code points up to U+0020 and whose own ends are not |
| JavaStrings.TrimIdempotent | src/main/java/com/example/demo/dto/LoginRequest.java:21 | trimming a trimmed string changes nothing |
| JavaStrings.TrimOfTrimmed | src/main/java/com/example/demo/controller/UserController.java:58 | a string whose ends are above U+0020 is a fixed point of `trim` |
| JavaStrings.ToUpper | src/main/java/com/example/demo/controller/UserController.java:58 | upper-casing keeps the length and maps every character on its own |
| JavaStrings.ToLower | src/main/java/com/example/demo/controller/UserController.java:71 | lower-casing keeps the length and maps every character on its own |
| JavaStrings.ToLowerIdempotent | src/main/java/com/example/demo/service/UserService.java:22 | lower-casing twice is lower-casing once |
| JavaStrings.ToUpperIdempotent | src/main/java/com/example/demo/controller/UserController.java:58 | upper-casing twice is upper-casing once |
| JavaStrings.CaseKeepsTrimmed | src/main/java/com/example/demo/controller/UserController.java:71 | case mapping keeps a trimmed string trimmed |
| JavaStrings.CaseKeepsBlank | src/main/java/com/example/demo/controller/UserController.java:57-58 | upper-casing turns no blank string into a non-blank one and no non-blank one into a blank one |
| JavaStrings.LastIndexOf | src/main/java/com/example/demo/service/FileStorageService.java:49 | the result is -1 or an index holding the character, and no later index holds it |
| Text.Split | frontend/src/components/PropertyCard.js:19 | splitting always yields at least one piece |
| Text.SplitJoin | src/main/java/com/example/demo/controller/OwnerPropertyController.java:120-124 | splitting on the separator undoes joining with it, when no part contains the separator |
| Text.SplitConcat | src/main/java/com/example/demo/controller/OwnerPropertyController.java:120-124 | splitting text around one separator splits both sides on their own and concatenates the pieces |
| UserController.LoginRequestOfTrims | src/main/java/com/example/demo/dto/LoginRequest.java:12-22 | the login body keeps which fields are present, stores them trimmed, and filling it again from its own fields changes nothing |
| UserController.RequestedRoleMeaning | src/main/java/com/example/demo/controller/UserController.java:57-59 | the requested role is trimmed and upper case, normalising it again changes nothing, and a missing or blank role is CUSTOMER |
| UserController.PaddedAdminIsAdmin | src/main/java/com/example/demo/controller/UserController.java:57-62 | " admin " normalises to ADMIN, so it is refused like "ADMIN" |
| UserController.RegisterCheckMeaning | src/main/java/com/example/demo/controller/UserController.java:47-83 | 400 exactly for a missing or blank field, then 403 exactly for a role normalising to ADMIN, then 409 exactly for a stored normalised e-mail; otherwise the new user has that e-mail, the role, the encoding of the trimmed password (the corrected hash of the Findings) and no id |
| UserController.RegisteredUser | src/main/java/com/example/demo/controller/UserController.java:47-83 | a registration that passes its checks had name, e-mail and password present and not blank, and builds the user from the normalised e-mail and the requested role, with the corrected hash of the trimmed password |
| UserController.Register | src/main/java/com/example/demo/controller/UserController.java:43-108 | a refusal leaves the users table unchanged and answers that refusal; otherwise the user is stored under the next id and 201 describes it without its password; the stored hash is the corrected one of the Findings |
| UserController.LoginMeaning | src/main/java/com/example/demo/controller/UserController.java:112-165 | 400 for a missing field; the same 401 exactly for an unknown e-mail or a wrong password; a 200 carries a token for the stored user's e-mail and the authority that loading the user grants |
| UserController.LoginOfStored | src/main/java/com/example/demo/controller/UserController.java:112-165 | with both fields present and not blank, a stored user under the normalised e-mail whose password matches is answered 200 with a token for that user, its id, e-mail and role |
| UserController.AsWrittenLocksOutPaddedPassword | src/main/java/com/example/demo/controller/UserController.java:82 | with the hash taken of the raw password, a user who registered a password with outer white space is refused when typing that password |
| UserController.PaddedPasswordExample | src/main/java/com/example/demo/dto/LoginRequest.java:21 | " pw" passes the blank check and trims to a different password |
| UserController.RegisterThenLogin | src/main/java/com/example/demo/controller/UserController.java:43-165 | with the trimmed password hashed, registering and then logging in with the same e-mail and password succeeds with a token for the new user and its role |
| UserDetailsService.NormalizedEmailIdempotent | src/main/java/com/example/demo/service/UserDetailsServiceImpl.java:43 | normalising an e-mail twice is normalising it once |
| UserDetailsService.AuthoritiesMeaning | src/main/java/com/example/demo/service/UserDetailsServiceImpl.java:57-65 | a stored role gives at most one authority; none exactly for a null or blank role, otherwise "ROLE_" + the upper-cased role |
| UserDetailsService.LoadUserByUsernameMeaning | src/main/java/com/example/demo/service/UserDetailsServiceImpl.java:41-53 | the load succeeds exactly for a stored normalised e-mail, fails with UsernameNotFound otherwise, and returns the stored e-mail and hash with no authorities exactly for a null or blank role |
| UserDetailsService.LoadIgnoresCaseAndSpace | src/main/java/com/example/demo/service/UserDetailsServiceImpl.java:43 | loading a name and loading its normalised form give the same answer |
| UserDetailsService.LoadedNameIsKey | src/main/java/com/example/demo/service/UserDetailsServiceImpl.java:43-47 | in a consistent users table the loaded username is the normalised name asked for |
| JwtFilter.FilterChain.constructor | src/main/java/com/example/demo/config/filter/JwtAuthenticationFilter.java:46 | the rest of the chain starts uninvoked |
| JwtFilter.FilterChain.DoFilter | src/main/java/com/example/demo/config/filter/JwtAuthenticationFilter.java:124 | each pass increments the chain's invocation count by one |
| JwtFilter.TokenOf | src/main/java/com/example/demo/config/filter/JwtAuthenticationFilter.java:66 | the token is what follows the "Bearer " prefix, so the prefix and the token make up the header |
| JwtFilter.DoFilterInternal | src/main/java/com/example/demo/config/filter/JwtAuthenticationFilter.java:43-125 | the rest of the chain runs exactly once, and the context changes only to the authentication NewAuthentication computes |
| JwtFilter.NoChangeWithoutBearerOrWhenAuthenticated | src/main/java/com/example/demo/config/filter/JwtAuthenticationFilter.java:60-73 | without a bearer header, or with an identity already present, nothing is recorded |
| JwtFilter.NewAuthenticationMeaning | src/main/java/com/example/demo/config/filter/JwtAuthenticationFilter.java:60-114 | a caller is recorded exactly when the header is a bearer header, no identity is present, the token names a subject, that subject loads and the token is valid for it, with no exception on the way; the principal is the loaded user with null credentials and its authorities |
| JwtFilter.RecordedCallerIsStoredUser | src/main/java/com/example/demo/config/filter/JwtAuthenticationFilter.java:76-94 | a recorded caller is a stored user, the services see its e-mail as the current name, and it has a role exactly when the stored role grants it |
| SecurityConfig.FirstMatchWins | src/main/java/com/example/demo/config/SecurityConfig.java:84-112 | when a rule matches and no earlier rule does, that rule's tier decides the request |
| SecurityConfig.NoMatchIsAuthenticated | src/main/java/com/example/demo/config/SecurityConfig.java:115 | a request that no rule matches needs an authenticated identity |
| SecurityConfig.RegisterAndLoginOpen | src/main/java/com/example/demo/config/SecurityConfig.java:86 | registration and login are open to anyone, whatever the method |
| SecurityConfig.ContactPostPublic | src/main/java/com/example/demo/config/SecurityConfig.java:87 | posting to the contact form is open to anyone |
| SecurityConfig.UploadsPublic | src/main/java/com/example/demo/config/SecurityConfig.java:88 | every path under /uploads/ is open to anyone |
| SecurityConfig.PropertyListPublicDetailsNot | src/main/java/com/example/demo/config/SecurityConfig.java:92-94 | GET of the property list is open, while GET of anything below it needs an identity |
| SecurityConfig.AuthenticatedAreas | src/main/java/com/example/demo/config/SecurityConfig.java:99-105 | the owner, booking and payment areas admit any authenticated identity, whatever the method |
| SecurityConfig.OwnerArea | src/main/java/com/example/demo/config/SecurityConfig.java:99 | every path under /api/owner/properties/ needs only authentication, whatever the method |
| SecurityConfig.BookingsArea | src/main/java/com/example/demo/config/SecurityConfig.java:102 | every path under /api/bookings/ needs only authentication, whatever the method |
| SecurityConfig.PaymentsArea | src/main/java/com/example/demo/config/SecurityConfig.java:105 | every path under /api/payments/ needs only authentication, whatever the method |
| SecurityConfig.AdminRuleDecides | src/main/java/com/example/demo/config/SecurityConfig.java:108 | every path under /api/admin/ is decided by the rule requiring role ADMIN, whatever the method |
| SecurityConfig.AdminAreaNeedsAdmin | src/main/java/com/example/demo/config/SecurityConfig.java:108 | the admin area admits a caller exactly when it is authenticated with the authority ROLE_ADMIN |
| SecurityConfig.DefaultNeedsAuthentication | src/main/java/com/example/demo/config/SecurityConfig.java:115 | a path no rule names falls to the default and needs an identity |
| FileStorage.ExtensionMeaning | src/main/java/com/example/demo/service/FileStorageService.java:46-50 | the extension is empty exactly for a name without a dot; otherwise it starts with the name's last dot, holds no other dot and is lower case |
| FileStorage.ImagePatternOnExtensions | src/main/java/com/example/demo/service/FileStorageService.java:52 | the type test accepts exactly .jpg, .jpeg, .png and .gif, and never a name without a dot |
| FileStorage.UpperCaseExtensionExample | src/main/java/com/example/demo/service/FileStorageService.java:49 | "photo.JPG" has the extension ".jpg" |
| FileStorage.StoreFileMeaning | src/main/java/com/example/demo/service/FileStorageService.java:41-72 | a file is stored exactly when it is present, non-empty, named, of one of the four types and free of ".."; the stored name is the id plus the extension and has no directory part when the id has none; every refusal is a RuntimeException or a null name |
| OwnerPropertyController.ConvertToDtoMeaning | src/main/java/com/example/demo/controller/OwnerPropertyController.java:147-175 | null converts to null; every column is kept; it agrees with the public controller's conversion whenever the owner and the amenities are present, and otherwise leaves those fields null |
| OwnerPropertyController.GuardMeaning | src/main/java/com/example/demo/controller/OwnerPropertyController.java:34 | the ownership guard lets a call through exactly for the owner of a stored property, and refuses an anonymous caller with 403 |
| OwnerPropertyController.UpdateMyProperty | src/main/java/com/example/demo/controller/OwnerPropertyController.java:43-62 | 404 for an unknown id; 200 with the DTO of the stored property holding the copied fields plus the update stamp; 500 "Error updating property." with the property unchanged when the copy breaks a NOT NULL, length or precision constraint |
| OwnerPropertyController.GuardedUpdate | src/main/java/com/example/demo/controller/OwnerPropertyController.java:33-63 | a refused caller gets the guard's reply and changes nothing; a caller let through gets the 200 update, or 500 with nothing changed when the copy breaks a NOT NULL, length or precision constraint |
| OwnerPropertyController.DeleteMyProperty | src/main/java/com/example/demo/controller/OwnerPropertyController.java:68-83 | 404 with no change for an unknown id; 500 "Error deleting property." with no change when a booking references the property; otherwise 204 and only that id leaves the table |
| OwnerPropertyController.GuardedDelete | src/main/java/com/example/demo/controller/OwnerPropertyController.java:66-83 | a refused caller gets the guard's reply and nothing is removed; the owner's property is removed with 204, or kept with 500 when a booking references it |
| OwnerPropertyController.FailureSticks | src/main/java/com/example/demo/controller/OwnerPropertyController.java:100-113 | once storing a file has failed, later files do not change the outcome |
| OwnerPropertyController.UploadedSucceeds | src/main/java/com/example/demo/controller/OwnerPropertyController.java:100-113 | the loop succeeds exactly when every eligible file can be stored |
| OwnerPropertyController.UploadedNames | src/main/java/com/example/demo/controller/OwnerPropertyController.java:98-118 | the loop collects no name exactly when no file is present, non-empty and an image; every name collected is the stored name of such a file |
| OwnerPropertyController.StoreFiles | src/main/java/com/example/demo/controller/OwnerPropertyController.java:98-114 | the loop over all files has exactly the outcome of the upload fold |
| OwnerPropertyController.NewImageUrlsMeaning | src/main/java/com/example/demo/controller/OwnerPropertyController.java:120-124 | splitting the new value on commas gives the existing pieces, or none for a blank value, followed by exactly the new names |
| OwnerPropertyController.UploadMyPropertyImages | src/main/java/com/example/demo/controller/OwnerPropertyController.java:88-143 | 404 for an unknown id; 500 with the prefixed message, unchanged, when a file cannot be stored; 400, unchanged, when nothing was stored; otherwise 200 with the names, which are appended to the property's image list |
| OwnerPropertyController.GuardedUpload | src/main/java/com/example/demo/controller/OwnerPropertyController.java:86-143 | a refused caller gets the guard's reply and nothing changes; a caller let through gets exactly the reply and the new image list of the upload body: 500 or 400 with no change, or 200 with the new names appended |
| PropertyController.ConvertToDtoMeaning | src/main/java/com/example/demo/controller/PropertyController.java:109-159 | null converts to null; otherwise reading the columns back gives the entity without its owner, amenities are never null, and the owner fields are the owner's or the id fallback with "N/A" |
| PropertyController.Create | src/main/java/com/example/demo/controller/PropertyController.java:77-105 | a missing required field answers 400 and an authentication error 401 with its message, both changing nothing; otherwise 201 with the DTO of the saved entity: a new property under the next id, or, for a body with the id of a stored property, that property overwritten with the body and the caller as owner and a DTO of the managed copy, which shows the body's own createdAt, or, for an unknown id, a new property under the next id; a row that breaks a NOT NULL, length or precision constraint answers 500 "Error creating property. Details logged." and changes no stored property |
| PropertyController.BlankCityRefused | src/main/java/com/example/demo/controller/PropertyController.java:81-88 | a property with a blank city counts as missing a required field |
| PropertyController.GetPropertyByIdMeaning | src/main/java/com/example/demo/controller/PropertyController.java:62-72 | 404 exactly for an unknown id; otherwise 200 with the converted stored entity |
| PropertyController.DtosOf | src/main/java/com/example/demo/controller/PropertyController.java:48-50 | one DTO per entity, in order, each the conversion of its entity |
| PropertyController.SearchShowsOnlyAvailable | src/main/java/com/example/demo/controller/PropertyController.java:35-57 | the search answers 200, and every property it shows has status AVAILABLE |
| BookingController.ConvertToDtoMeaning | src/main/java/com/example/demo/controller/BookingController.java:134-166 | the DTO copies the booking's own fields, names property, owner and customer by id (with the owner-id fallback), and leaves the property and customer fields empty exactly when the booking has none |
| BookingController.RefusedChangeIsServerError | src/main/java/com/example/demo/controller/BookingController.java:125-127 | every status change the permission table refuses reaches the client as 500 "Update failed." |
| BookingController.NullPropertyIdIsServerError | src/main/java/com/example/demo/service/BookingService.java:48 | a signed-in, stored caller with a null property id fails with the persistence error, which the create endpoint answers with 500 "Failed to create booking request." |
| BookingController.DtosOf | src/main/java/com/example/demo/controller/BookingController.java:60-62 | one DTO per booking, in order, each the conversion of its booking |
| BookingController.MyBookingsShowOnlyMine | src/main/java/com/example/demo/controller/BookingController.java:55-83 | without the role the list is 403 and empty; a customer's 200 list shows only bookings whose customer is the caller, an owner's only bookings on the caller's properties |
| BookingController.AllBookingsForAdminOnly | src/main/java/com/example/demo/controller/BookingController.java:85-96 | 200 exactly for a caller with ROLE_ADMIN whose stored role is "ADMIN", with one DTO per stored booking |
| BookingController.GetBookingByIdMeaning | src/main/java/com/example/demo/controller/BookingController.java:100-113 | 200 exactly for a signed-in caller who may cancel the stored booking, then with that booking's DTO; a known caller asking for an unknown id gets 404 |
| BookingController.CreateBookingRequest | src/main/java/com/example/demo/controller/BookingController.java:38-52 | anonymous 403 and invalid request 400 change nothing; a service refusal goes through the catch blocks and changes nothing; otherwise 201 with the DTO of the new booking stored under the next id |
| BookingController.UpdateBookingStatusEndpoint | src/main/java/com/example/demo/controller/BookingController.java:117-128 | anonymous 403 and a missing status 400 change nothing; a refusal goes through the catch blocks and leaves the booking as it was; otherwise 200 with the DTO of the updated booking |
| PaymentController.NotFoundMessageIs404 | src/main/java/com/example/demo/controller/PaymentController.java:53-58 | an illegal argument whose message starts with "Booking not found" answers 404 |
| PaymentController.ConfirmManualPaymentMeaning | src/main/java/com/example/demo/controller/PaymentController.java:42-67 | 200 exactly for a signed-in caller who is an admin or passes the ownership check, when the update to "RECEIVED" succeeds, and then the DTO carries the updated payment status; only the update at "RECEIVED" matters; an admin's call never depends on the ownership check |
| PaymentController.RefusedCallerIsForbidden | src/main/java/com/example/demo/controller/PaymentController.java:43 | a signed-in caller who is no admin and fails the check gets 403, whatever the update would do |
| AdminController.DataOf | src/main/java/com/example/demo/controller/AdminController.java:38-40 | one entity value per listed property, in order |
| AdminController.GetAllPropertiesMeaning | src/main/java/com/example/demo/controller/AdminController.java:33-45 | a list is answered exactly to a caller with ROLE_ADMIN, and it then holds every stored property whatever its status; anyone else gets 403 |
| AdminController.DeleteAnyProperty | src/main/java/com/example/demo/controller/AdminController.java:54-70 | a caller without ROLE_ADMIN gets 403 and nothing changes; an admin removes the id with no ownership check and gets 204; 404 for an unknown id and 500 "Internal error deleting property." for a property a booking references, both changing nothing |
| ContactMessages.ContactMessage.constructor | src/main/java/com/example/demo/service/ContactMessageService.java:22-31 | a message arriving from the contact form has no id yet and is not read |
| ContactMessages.ContactMessage.SetId | src/main/java/com/example/demo/service/ContactMessageService.java:30 | the id the repository assigns on save changes only the id |
| ContactMessages.ContactMessage.SetRead | src/main/java/com/example/demo/service/ContactMessageService.java:45-50 | setting the read flag changes only that flag |
| ContactMessages.ContactMessage.CopyFrom | src/main/java/com/example/demo/service/ContactMessageService.java:30 | the copy merge makes onto a stored message gives it the incoming name, e-mail, text and read flag and keeps its id |
| ContactMessages.MessageStore.constructor | src/main/java/com/example/demo/service/ContactMessageService.java:18-19 | the message repository starts empty and keyed by message id |
| ContactMessages.MessageStore.SaveMessage | src/main/java/com/example/demo/service/ContactMessageService.java:22-31 | a null or blank name, email or message gives IllegalArgumentException with the service's text and stores nothing; a complete new message is stored unchanged apart from its new id, under that id; one with a stored id overwrites that message's fields, read flag included; one with an unknown id is stored as a new message under the next id |
| ContactMessages.MessageStore.MarkAsRead | src/main/java/com/example/demo/service/ContactMessageService.java:42-52 | the answer is true exactly when the id is stored; then only that message's read flag changes, to true; otherwise nothing changes |
| ContactMessages.MarkTwice | src/main/java/com/example/demo/service/ContactMessageService.java:45-50 | marking is idempotent: a second mark gives the same answer and leaves the message read, exactly as after one mark |
| PropertyCard.JsTrimOfTrimmed | frontend/src/components/PropertyCard.js:21 | `trim` leaves a name without outer JavaScript white space unchanged |
| PropertyCard.CleanAppend | frontend/src/components/PropertyCard.js:20-22 | trimming and dropping empty pieces works piece by piece, so it distributes over concatenation |
| PropertyCard.CleanKeepsNames | frontend/src/components/PropertyCard.js:21-22 | non-empty, already trimmed names pass the map and filter unchanged and in order |
| PropertyCard.ImageNames | frontend/src/components/PropertyCard.js:20-22 | no name the card reads from `imageUrls` is empty |
| PropertyCard.CleanNonEmpty | frontend/src/components/PropertyCard.js:22 | the filter leaves no empty name |
| PropertyCard.EmptyHasNoNames | frontend/src/components/PropertyCard.js:19-23 | an empty `imageUrls` string gives no names |
| PropertyCard.FirstImageUrlMeaning | frontend/src/components/PropertyCard.js:17-26 | a string `imageUrls` with a usable name gives "/uploads/" followed by the first name; a missing or non-string value, or one without usable names, gives the placeholder |
| PropertyCard.CardImage | frontend/src/components/PropertyCard.js:8-26 | a null or undefined property renders nothing; otherwise the card shows the placeholder or a URL strictly longer than "/uploads/" under that directory |
| PropertyCard.ReadsWhatUploadWrites | frontend/src/components/PropertyCard.js:19-22 | reading the value that the upload endpoint writes gives the names of the kept old value followed by the uploaded names in upload order |
| PropertyCard.FirstUploadShowsFirstName | frontend/src/components/PropertyCard.js:19-26 | after the first upload to a property without images, the card shows "/uploads/" followed by the first uploaded file name |
| RequestBookingForm.DigitChar | frontend/src/components/RequestBookingForm.js:15 | the character written for 0..9 is an ASCII digit, one that the `\d` class matches |
| RequestBookingForm.ValidateTimeMeaning | frontend/src/components/RequestBookingForm.js:14-16 | the time validator accepts exactly the two-digit "HH:mm" texts with 8 <= HH <= 17 and 0 <= mm <= 59 |
| RequestBookingForm.TimeExamples | frontend/src/components/RequestBookingForm.js:15 | "08:00" and "17:59" pass; "18:00", "7:30", "08:60" and "" fail |
| RequestBookingForm.NumberOfTwo | frontend/src/components/RequestBookingForm.js:10 | a two-digit field reads as its decimal value |
| RequestBookingForm.NumberOfFour | frontend/src/components/RequestBookingForm.js:10 | a four-digit year field reads as its decimal value |
| RequestBookingForm.DigitRoundTrip | frontend/src/components/RequestBookingForm.js:10 | reading the digit written for k gives k |
| RequestBookingForm.TwoDigits | frontend/src/components/RequestBookingForm.js:10 | a number below 100 is its two decimal digits |
| RequestBookingForm.FourDigits | frontend/src/components/RequestBookingForm.js:10 | a number below 10000 is its four decimal digits |
| RequestBookingForm.ParseDateText | frontend/src/components/RequestBookingForm.js:10 | reading the "yyyy-mm-dd" text of a date gives that date back |
| RequestBookingForm.YearText | frontend/src/components/RequestBookingForm.js:10 | the first four characters of a date's text are digits reading back as its year |
| RequestBookingForm.TwoDigitText | frontend/src/components/RequestBookingForm.js:10 | a two-digit field of the date text is two digits reading back as the number it was written from |
| RequestBookingForm.ValidateDateMeaning | frontend/src/components/RequestBookingForm.js:6-12 | the empty string fails; a date written by the date picker passes exactly when it is today or later |
| RequestBookingForm.SubmitErrorMeaning | frontend/src/components/RequestBookingForm.js:31-43 | the form goes ahead exactly when both validators pass; a missing date or time is reported first, a past date next |
| RequestBookingForm.BookingForm.constructor | frontend/src/components/RequestBookingForm.js:20-24 | the form starts with empty fields, no error, not submitting and no request sent |
| RequestBookingForm.BookingForm.HandleSubmit | frontend/src/components/RequestBookingForm.js:26-69 | the first failed check sets its message and posts nothing; otherwise it posts one request with the current property, date, time and notes, then clears the three fields on success or shows the server's error text on failure |

## Left out

- HTTP plumbing: annotations, routing, `ResponseEntity` building, CORS configuration and static resource mapping. Replies are a status code and a small body datatype.
- Framework reply bodies: a request the route table or `@PreAuthorize` refuses is modelled as 403 with an empty body, not as the body Spring writes.
- SecurityContextHolder: the caller's authentication is an explicit parameter. The JWT filter writes it into a small context object.
- Cryptography: JWT signing, parsing and expiry, and BCrypt, because JwtService and the encoder's internals are not shown. `extractUsername`, `isTokenValid`, `generateToken`, `encode` and `matches` are function parameters, and any exception they raise is an input the filter sees.
- The User entity, its JPA mapping and JwtService are not part of this model. Users are values, and `User.equals` is equality of ids. UserRepository is modelled in users.dfy as a table keyed by e-mail.
- The `getOwnerId` body is not shown, so it is modelled as `owner.id`. The `getAmenities` body is not shown either, so the amenities are an input.
- `updatePaymentStatus` and `checkBookingOwnershipOrAdmin` are not in BookingService.java. The payment endpoint takes their outcomes as parameters.
- BookingController.ConvertToDto: BookingResponseDTO.java declares no `paymentStatus` field, yet BookingController.java:139 and PaymentController.java:92 set one. The DTO is modelled with the field, as those call sites intend.
- UserController.Register: stores the encoding of the trimmed password, the corrected hash of the Findings row below, not the hash of the raw password that UserController.java:82 computes. UserController.AsWrittenLocksOutPaddedPassword models the code as written.
- UserController.RegisterCheck: builds the new user with the corrected hash of the trimmed password, as UserController.Register does.
- UserController.RegisterCheckMeaning: states the corrected hash of the trimmed password, as UserController.Register does.
- UserController.RegisteredUser: states the corrected hash of the trimmed password, as UserController.Register does.
- Persistence internals: lazy loading, JOIN FETCH mechanics, flush order and the persistence context. Each `save` stands for the save together with the commit of the transaction around it, since every service saves last. A failed commit is modelled as an error that leaves every stored row as it was, which is what the rollback does in the database.
- PropertyRepository.PropertyStore.Save: `@PreUpdate` is modelled as stamping updatedAt on every save of a stored entity, including one that changed nothing; Hibernate stamps only a dirty entity.
- PropertyRepository.PropertyStore.Save: a merge leaves the instance passed in untouched. The stored row keeps its creation time, and the managed copy that is returned carries the request's createdAt, as `merge` returns it before any reload. Scale beyond two decimals is not expressible, since price and area are whole cents and hundredths. An id that names no row is inserted under a fresh id, which is what Spring Data's `merge` does with a generated id; the instance passed in is not given that id.
- BookingRepository.BookingStore.Save: the NOT NULL columns of the bookings table and the length of 30 on payment_status are not checked on save. Every booking the services save has its customer, property, visit date and time, and the status and payment status that `onCreate` defaults.
- ContactMessages.MessageStore.SaveMessage: the ContactMessage entity is not part of this model, so `receivedAt` and any NOT NULL column of the messages table are left out; a merge keeps only the id of the stored message.
- The bookings table is not linked to the properties table in the model. The property ids that bookings reference are an input (`booked`) of the delete operations, which fail the foreign key on them.
- The `LazyInitializationException` handling in the controllers is not modelled, because the model has no lazy loading.
- An exception that escapes a controller, such as one thrown by the `@PreAuthorize` expression behind OwnerPropertyController.Guard or PaymentController.Gate, is modelled as Spring MVC's default 500. Whether the `/error` dispatch is itself authorised, which could turn that into a 403, is not modelled.
- Timestamps from `now()`: the clock is an `int` parameter.
- Money: `BigDecimal` price and area are integers in cents and hundredths; their DECIMAL(12,2) and DECIMAL(10,2) precision is the bound in `PropertyEntity.Writable`.
- Java string case mapping is ASCII only. Non-ASCII letters are left unchanged by `toUpperCase` and `toLowerCase`.
- PropertyRepository.MatchesCriteria: `%` and `_` inside the city parameter are matched literally, not as SQL `LIKE` wildcards.
- BookingRepository.NewestFirst: the order of bookings with equal `createdAt` is fixed by the model's insertion sort. The database leaves it unspecified.
- FileStorage: `StringUtils.cleanPath`, the copy to disk and the directory layout are left out. The random UUID is a parameter.
- Logging: every logger and `System.out` call.
- `getAllMessages` of ContactMessageService is a plain `findAll` with no decision in it, so it is not modelled.
- The thin wrappers UserService.java, PublicController.java and ContactMessageRepository.java are not modelled beyond the repository operations the services call.
- The `/api/users/test-auth` rule is in the route table. The endpoint behind it is not modelled.
- RequestBookingForm.ParseIsoDate: `new Date(dateStr + 'T00:00:00')` is modelled only on "yyyy-mm-dd" text with a month of 1-12 and a day of 1-31. Calendar validity, rolling over of impossible dates, and other formats that JavaScript accepts are left out, and so are time zones.
- React: rendering, state updates that are asynchronous, `onBookingSuccess`, the `submitting` flag shown while a request is pending, and the axios client. The outcome of the post is a parameter of `HandleSubmit`.

## Findings

| source | as written | input that shows it | evidently intended | confidence | as-written member | corrected member |
|---|---|---|---|---|---|---|
| src/main/java/com/example/demo/service/PropertyService.java:73-81 | createProperty saves the request body as it came; a body carrying an "id" is merged onto the stored property of that id, which PropertyController.java:77 allows to any signed-in caller | POST /api/properties with the required fields and the id of a property owned by someone else: that property is overwritten, the caller becomes its owner, and the reply is 201 | create always inserts a new property and changes no stored one | not executed | PropertyService.TakeoverAsWritten | PropertyService.CreateNewProperty |
| src/main/java/com/example/demo/controller/UserController.java:82 | registration hashes the password as given, but login trims the password first (LoginRequest.java:21), so a password with white space at either end never matches at login | register with password " pw", then log in with " pw" | hash the same trimmed password that login checks, so that every registered user can log in | not executed | UserController.AsWrittenLocksOutPaddedPassword | UserController.RegisterThenLogin |

The registration model uses the corrected hash throughout, as the Left out lines for the UserController members say. The property endpoint is different: PropertyController.Create and PropertyService.CreateProperty keep the merge as written, so that the reply and the overwritten property of the first row are stated where the request arrives. PropertyService.CreateNewProperty is the corrected service beside them, and PropertyService.TakeoverAsWritten shows what the merge does to the stored row.
