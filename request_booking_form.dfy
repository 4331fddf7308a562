// RequestBookingForm (frontend): the date and time validators and the
// submit handler's guard order and reset.
module RequestBookingForm {
  import opened Wrappers

  // ---------------------------------------------------------------- time

  predicate IsDigit(c: char)
  {
    '0' <= c <= '9'
  }

  function DigitChar(d: nat): (c: char)
    requires d < 10
    ensures IsDigit(c)
  {
    ('0' as int + d) as char
  }

  function DigitValue(c: char): nat
    requires IsDigit(c)
  {
    c as int - '0' as int
  }

  /** `/^(0[8-9]|1[0-7]):[0-5]\d$/.test(timeStr)`. */
  predicate ValidateTime(t: string)
  {
    && |t| == 5
    && ((t[0] == '0' && '8' <= t[1] <= '9') || (t[0] == '1' && '0' <= t[1] <= '7'))
    && t[2] == ':'
    && '0' <= t[3] <= '5'
    && IsDigit(t[4])
  }

  /** The two-digit "HH:mm" text of an hour and a minute. */
  function TimeText(h: nat, m: nat): string
    requires h < 100 && m < 100
  {
    [DigitChar(h / 10), DigitChar(h % 10), ':', DigitChar(m / 10), DigitChar(m % 10)]
  }

  /** The validator accepts exactly the "HH:mm" texts from 08:00 to 17:59. */
  lemma ValidateTimeMeaning(t: string)
    ensures ValidateTime(t) <==> exists h: nat, m: nat :: 8 <= h <= 17 && m <= 59 && t == TimeText(h, m)
  {
    if ValidateTime(t) {
      var h := DigitValue(t[0]) * 10 + DigitValue(t[1]);
      var m := DigitValue(t[3]) * 10 + DigitValue(t[4]);
      assert h / 10 == DigitValue(t[0]) && h % 10 == DigitValue(t[1]);
      assert m / 10 == DigitValue(t[3]) && m % 10 == DigitValue(t[4]);
      assert t == TimeText(h, m);
    }
    forall h: nat, m: nat | 8 <= h <= 17 && m <= 59
      ensures ValidateTime(TimeText(h, m))
    {
      assert h / 10 == 0 || h / 10 == 1;
    }
  }

  lemma TimeExamples()
    ensures ValidateTime("08:00") && ValidateTime("17:59")
    ensures !ValidateTime("18:00") && !ValidateTime("7:30") && !ValidateTime("08:60") && !ValidateTime("")
  {
  }

  // ---------------------------------------------------------------- date

  /** A calendar date; two of them compare as their local midnights do. */
  datatype Date = Date(year: nat, month: nat, day: nat)

  predicate Before(a: Date, b: Date)
  {
    a.year < b.year || (a.year == b.year && (a.month < b.month || (a.month == b.month && a.day < b.day)))
  }

  predicate Plausible(d: Date)
  {
    d.year <= 9999 && 1 <= d.month <= 12 && 1 <= d.day <= 31
  }

  function Number(s: string): nat
    requires forall i :: 0 <= i < |s| ==> IsDigit(s[i])
  {
    if s == [] then 0 else Number(s[..|s| - 1]) * 10 + DigitValue(s[|s| - 1])
  }

  /** The "yyyy-mm-dd" text a date input produces, read as a date. */
  function ParseIsoDate(s: string): Option<Date>
  {
    if |s| == 10 && s[4] == '-' && s[7] == '-'
       && (forall i :: 0 <= i < 10 && i != 4 && i != 7 ==> IsDigit(s[i]))
    then
      var d := Date(Number(s[..4]), Number(s[5..7]), Number(s[8..]));
      if Plausible(d) then Some(d) else None
    else None
  }

  /** The "yyyy-mm-dd" text of a date. */
  function DateText(d: Date): string
    requires Plausible(d)
  {
    [DigitChar(d.year / 100 / 10), DigitChar(d.year / 100 % 10), DigitChar(d.year % 100 / 10), DigitChar(d.year % 100 % 10), '-',
     DigitChar(d.month / 10), DigitChar(d.month % 10), '-', DigitChar(d.day / 10), DigitChar(d.day % 10)]
  }

  lemma NumberOfTwo(s: string)
    requires |s| == 2 && IsDigit(s[0]) && IsDigit(s[1])
    ensures Number(s) == 10 * DigitValue(s[0]) + DigitValue(s[1])
  {
    var first := s[..1];
    assert first[..0] == [] && first[0] == s[0];
    assert Number(first) == DigitValue(s[0]);
  }

  lemma NumberOfFour(s: string)
    requires |s| == 4 && forall i :: 0 <= i < 4 ==> IsDigit(s[i])
    ensures Number(s) == 1000 * DigitValue(s[0]) + 100 * DigitValue(s[1]) + 10 * DigitValue(s[2]) + DigitValue(s[3])
  {
    var three := s[..3];
    assert three[..2] == s[..2];
    NumberOfTwo(s[..2]);
    assert Number(three) == Number(s[..2]) * 10 + DigitValue(s[2]);
  }

  lemma DigitRoundTrip(k: nat)
    requires k < 10
    ensures DigitValue(DigitChar(k)) == k
  {
  }

  lemma TwoDigits(n: nat)
    requires n < 100
    ensures 10 * (n / 10) + n % 10 == n
  {
  }

  lemma FourDigits(n: nat)
    requires n < 10000
    ensures n / 100 / 10 < 10
    ensures 1000 * (n / 100 / 10) + 100 * (n / 100 % 10) + 10 * (n % 100 / 10) + n % 100 % 10 == n
  {
    var high, low := n / 100, n % 100;
    assert n == 100 * high + low;
    TwoDigits(high);
    TwoDigits(low);
  }

  /** Two digits written for `n` read back as `n`. */
  lemma TwoDigitText(n: nat, s: string)
    requires n < 100 && |s| == 2 && s[0] == DigitChar(n / 10) && s[1] == DigitChar(n % 10)
    ensures IsDigit(s[0]) && IsDigit(s[1]) && Number(s) == n
  {
    DigitRoundTrip(n / 10);
    DigitRoundTrip(n % 10);
    NumberOfTwo(s);
    TwoDigits(n);
  }

  /** The year field of a date's text reads back as its year. */
  lemma YearText(d: Date)
    requires Plausible(d)
    ensures var s := DateText(d); (forall i :: 0 <= i < 4 ==> IsDigit(s[i])) && Number(s[..4]) == d.year
  {
    var s := DateText(d)[..4];
    FourDigits(d.year);
    DigitRoundTrip(d.year / 100 / 10);
    DigitRoundTrip(d.year / 100 % 10);
    DigitRoundTrip(d.year % 100 / 10);
    DigitRoundTrip(d.year % 100 % 10);
    NumberOfFour(s);
  }

  /** Reading the text of a date gives the date back. */
  lemma ParseDateText(d: Date)
    requires Plausible(d)
    ensures ParseIsoDate(DateText(d)) == Some(d)
  {
    var s := DateText(d);
    YearText(d);
    TwoDigitText(d.month, s[5..7]);
    TwoDigitText(d.day, s[8..]);
  }

  /**
   * `validateDate`: false for the empty string; otherwise whether the
   * chosen date is on or after `today`, the caller's current local date.
   */
  predicate ValidateDate(dateStr: string, today: Date)
  {
    dateStr != "" && ParseIsoDate(dateStr).Some? && !Before(ParseIsoDate(dateStr).value, today)
  }

  /** A date the picker produces passes exactly when it is today or later. */
  lemma ValidateDateMeaning(d: Date, today: Date)
    requires Plausible(d)
    ensures ValidateDate(DateText(d), today) <==> (d == today || Before(today, d))
    ensures !ValidateDate("", today)
  {
    ParseDateText(d);
  }

  // -------------------------------------------------------------- submit

  const MissingBoth: string := "Please select both a date and a time for the visit."
  const DateInPast: string := "Visit date must be today or a future date."
  const TimeOutOfHours: string := "Please select a valid time between 08:00 and 17:59."
  const SubmitFailed: string := "Failed to submit request."

  /** The checks of `handleSubmit`, in order; the first failure's message. */
  function SubmitError(visitDate: string, visitTime: string, today: Date): Option<string>
  {
    if visitDate == "" || visitTime == "" then Some(MissingBoth)
    else if !ValidateDate(visitDate, today) then Some(DateInPast)
    else if !ValidateTime(visitTime) then Some(TimeOutOfHours)
    else None
  }

  /**
   * The form goes ahead exactly when both validators pass, and a missing
   * field is reported before a past date, which is reported before a bad
   * time.
   */
  lemma SubmitErrorMeaning(visitDate: string, visitTime: string, today: Date)
    ensures SubmitError(visitDate, visitTime, today).None? <==> ValidateDate(visitDate, today) && ValidateTime(visitTime)
    ensures visitDate == "" || visitTime == "" ==> SubmitError(visitDate, visitTime, today) == Some(MissingBoth)
    ensures visitDate != "" && visitTime != "" && !ValidateDate(visitDate, today) ==>
              SubmitError(visitDate, visitTime, today) == Some(DateInPast)
  {
  }

  /** The request body the form posts. */
  datatype BookingRequest = BookingRequest(propertyId: int, visitDate: string, visitTime: string, customerNotes: string)

  /** `err.response?.data?.error || err.message || 'Failed to submit request.'`, with "" for an absent text. */
  function FailureText(serverError: string, message: string): string
  {
    if serverError != "" then serverError else if message != "" then message else SubmitFailed
  }

  /** The form's state. */
  class BookingForm {
    var visitDate: string
    var visitTime: string
    var customerNotes: string
    var error: string
    var submitting: bool
    /** The requests posted so far. */
    var sent: seq<BookingRequest>

    constructor ()
      ensures visitDate == "" && visitTime == "" && customerNotes == "" && error == "" && !submitting && sent == []
    {
      visitDate, visitTime, customerNotes, error := "", "", "", "";
      submitting := false;
      sent := [];
    }

    /**
     * `handleSubmit`: on a failed check, the message and no request; else
     * one request with the current fields, then on success the fields are
     * cleared and on failure the error text is shown. The post's outcome
     * is a parameter: `Ok` or the server's error text and the message.
     */
    method HandleSubmit(propertyId: int, today: Date, post: Result<(), (string, string)>)
      modifies this
      ensures match SubmitError(old(visitDate), old(visitTime), today)
              case Some(msg) =>
                && error == msg && sent == old(sent) && submitting == old(submitting)
                && visitDate == old(visitDate) && visitTime == old(visitTime) && customerNotes == old(customerNotes)
              case None =>
                && sent == old(sent) + [BookingRequest(propertyId, old(visitDate), old(visitTime), old(customerNotes))]
                && !submitting
                && (post.Ok? ==> visitDate == "" && visitTime == "" && customerNotes == "" && error == "")
                && (post.Err? ==>
                      && error == FailureText(post.error.0, post.error.1)
                      && visitDate == old(visitDate) && visitTime == old(visitTime) && customerNotes == old(customerNotes))
    {
      error := "";
      var check := SubmitError(visitDate, visitTime, today);
      if check.Some? {
        error := check.value;
        return;
      }
      submitting := true;
      sent := sent + [BookingRequest(propertyId, visitDate, visitTime, customerNotes)];
      match post {
        case Ok(_) =>
          visitDate := "";
          visitTime := "";
          customerNotes := "";
        case Err(texts) =>
          error := FailureText(texts.0, texts.1);
      }
      submitting := false;
    }
  }
}
