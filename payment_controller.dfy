// PaymentController: manual payment confirmation. `updatePaymentStatus`
// and `checkBookingOwnershipOrAdmin` are called but not defined in the
// booking service, so both enter as parameters; the DTO conversion is the
// booking controller's.
module PaymentController {
  import opened Wrappers
  import opened Text
  import opened Errors
  import opened Security
  import opened BookingRepository
  import BookingController

  type BookingDto = BookingController.BookingDto

  /** The payment status the endpoint always asks for. */
  const Received: string := "RECEIVED"
  const ConfirmFailed: string := "Failed to confirm payment status."

  datatype Reply =
    | DtoReply(status: Status, dto: BookingDto)
    | ErrorReply(status: Status, error: string)
    | EmptyReply(status: Status)

  /** `hasRole('ADMIN') or @bookingService.checkBookingOwnershipOrAdmin(#bookingId)`, evaluated left to right. */
  function Gate(auth: Option<Authentication>, bookingId: int, ownershipOrAdmin: int -> Result<bool, Exception>)
    : Result<bool, Exception>
  {
    if HasRole(auth, "ADMIN") then Ok(true) else ownershipOrAdmin(bookingId)
  }

  /**
   * The catch blocks: an illegal argument whose message mentions "Booking
   * not found" is 404, any other illegal argument 400 with its message, a
   * denied access 403 with its message, anything else 500.
   */
  function ErrorOf(e: Exception): Reply
  {
    if e.kind == IllegalArgument then
      if Contains(e.message, "Booking not found") then EmptyReply(NotFound404) else ErrorReply(BadRequest400, e.message)
    else if e.kind == AccessDenied then ErrorReply(Forbidden403, e.message)
    else ErrorReply(InternalServerError500, ConfirmFailed)
  }

  /** The service's own not-found message always maps to 404. */
  lemma NotFoundMessageIs404(rest: string)
    ensures ErrorOf(Exception(IllegalArgument, "Booking not found" + rest)) == EmptyReply(NotFound404)
  {
    PrefixContained("Booking not found", rest);
  }

  /**
   * `confirmManualPaymentForBooking`: refused for an anonymous caller and
   * when the gate says no; otherwise the updated booking's DTO, or the
   * service's exception through the catch blocks.
   */
  function ConfirmManualPayment(auth: Option<Authentication>, bookingId: int,
                                ownershipOrAdmin: int -> Result<bool, Exception>,
                                updatePaymentStatus: (int, string) -> Result<Row, Exception>): Reply
  {
    if IsAnonymous(auth) then EmptyReply(Forbidden403)
    else
      match Gate(auth, bookingId, ownershipOrAdmin)
      case Err(_) => EmptyReply(InternalServerError500)
      case Ok(false) => EmptyReply(Forbidden403)
      case Ok(true) =>
        match updatePaymentStatus(bookingId, Received)
        case Ok(row) => DtoReply(Ok200, BookingController.ConvertToDto(row))
        case Err(e) => ErrorOf(e)
  }

  /**
   * Success means a signed-in caller passed the gate and the update
   * succeeded; the reply then carries the updated booking. The endpoint
   * depends on the update only at status "RECEIVED", and an admin's call
   * never consults the ownership check.
   */
  lemma ConfirmManualPaymentMeaning(auth: Option<Authentication>, bookingId: int,
                                    ownershipOrAdmin: int -> Result<bool, Exception>,
                                    updatePaymentStatus: (int, string) -> Result<Row, Exception>)
    ensures ConfirmManualPayment(auth, bookingId, ownershipOrAdmin, updatePaymentStatus).status == Ok200 <==>
              && !IsAnonymous(auth)
              && (HasRole(auth, "ADMIN") || ownershipOrAdmin(bookingId) == Ok(true))
              && updatePaymentStatus(bookingId, Received).Ok?
    ensures ConfirmManualPayment(auth, bookingId, ownershipOrAdmin, updatePaymentStatus).status == Ok200 ==>
              ConfirmManualPayment(auth, bookingId, ownershipOrAdmin, updatePaymentStatus).dto.paymentStatus ==
                updatePaymentStatus(bookingId, Received).value.booking.paymentStatus
    ensures forall other: (int, string) -> Result<Row, Exception> | other(bookingId, Received) == updatePaymentStatus(bookingId, Received) ::
              ConfirmManualPayment(auth, bookingId, ownershipOrAdmin, other) ==
                ConfirmManualPayment(auth, bookingId, ownershipOrAdmin, updatePaymentStatus)
    ensures HasRole(auth, "ADMIN") ==>
              forall check: int -> Result<bool, Exception> ::
                ConfirmManualPayment(auth, bookingId, check, updatePaymentStatus) ==
                  ConfirmManualPayment(auth, bookingId, ownershipOrAdmin, updatePaymentStatus)
  {
    if ConfirmManualPayment(auth, bookingId, ownershipOrAdmin, updatePaymentStatus).status == Ok200 {
      BookingController.ConvertToDtoMeaning(updatePaymentStatus(bookingId, Received).value);
    }
  }

  /** A signed-in caller who is neither admin nor passes the check is refused, whatever the update would do. */
  lemma RefusedCallerIsForbidden(auth: Option<Authentication>, bookingId: int,
                                 ownershipOrAdmin: int -> Result<bool, Exception>,
                                 updatePaymentStatus: (int, string) -> Result<Row, Exception>)
    requires !IsAnonymous(auth) && !HasRole(auth, "ADMIN") && ownershipOrAdmin(bookingId) == Ok(false)
    ensures ConfirmManualPayment(auth, bookingId, ownershipOrAdmin, updatePaymentStatus) == EmptyReply(Forbidden403)
  {
  }
}
