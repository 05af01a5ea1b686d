/**
 * The check-in form: one component that either schedules a new check-in or,
 * in update mode, loads an existing one and patches it. The clock, the date
 * parser and formatter and the server's answers are inputs.
 */
module CheckIn {
  import opened Js
  import opened Gateway
  import opened Feedback

  const PastTimeMessage := "Cannot schedule check-in in the past. Please choose a future time."
  const UnexpectedErrorMessage := "An unexpected error occurred"
  const ScheduleUrl := "/api/check-in/schedule"
  const CheckInUrlPrefix := "/api/check-in/"
  /** Length of a `yyyy-MM-ddTHH:mm` value of a datetime-local input. */
  const DateTimeLength := 16

  /** The alert shown under the form. */
  datatype Snackbar = Snackbar(open: bool, message: string, severity: Severity)

  /** The editable fields of the form. */
  datatype Fields = Fields(checkInTime: string, frequency: string, notify: bool)

  /** The body of a create or update request. */
  datatype Payload = Payload(userId: string, checkInTime: string, frequency: string, notify: bool)

  /** The body of the response to a read of an existing check-in. */
  datatype CheckInData = CheckInData(checkInTime: string, frequency: string, notify: bool)

  function DefaultFields(): Fields
  {
    Fields("", "daily", false)
  }

  function InitialSnackbar(): Snackbar
  {
    Snackbar(false, "", Info)
  }

  /** The load runs when the form is in update mode and the route carries an id. */
  predicate ShouldLoad(update: bool, checkInId: Option<string>)
  {
    update && Truthy(checkInId)
  }

  /** `s.slice(0, n)`. */
  function Slice(s: string, n: nat): (r: string)
    ensures |r| <= n && |r| <= |s|
    ensures r == s[..|r|]
    ensures |s| <= n ==> r == s
    ensures n <= |s| ==> |r| == n
  {
    if |s| <= n then s else s[..n]
  }

  /**
   * The fields after a read settles: `None` when the read fails or the
   * formatter throws, in which case the catch branch leaves the fields alone.
   */
  function Loaded(format: string -> Option<string>, reply: Response<CheckInData>): (r: Option<Fields>)
    ensures r.Some? <==> reply.Ok? && format(reply.data.checkInTime).Some?
    ensures r.Some? ==> var f := format(reply.data.checkInTime).value;
      && |r.value.checkInTime| <= DateTimeLength && |r.value.checkInTime| <= |f|
      && r.value.checkInTime == f[..|r.value.checkInTime|]
      && (|f| >= DateTimeLength ==> |r.value.checkInTime| == DateTimeLength)
      && r.value.frequency == reply.data.frequency
      && r.value.notify == reply.data.notify
  {
    match reply
    case Err(_) => None
    case Ok(data) =>
      match format(data.checkInTime)
      case None => None
      case Some(f) => Some(Fields(Slice(f, DateTimeLength), data.frequency, data.notify))
  }

  /**
   * Whether the selected time is rejected as past. An unparseable time
   * (`Invalid Date`) compares false with `<=` and is never rejected.
   */
  predicate IsPast(selected: Option<int>, now: int)
  {
    selected.Some? && selected.value <= now
  }

  /** The message of a failed submission: the server's `error` field if truthy, else a generic text. */
  function FailureMessage(error: Option<string>): (m: string)
    ensures m != ""
    ensures Truthy(error) ==> m == error.value
    ensures !Truthy(error) ==> m == UnexpectedErrorMessage
  {
    OrElse(error, UnexpectedErrorMessage)
  }

  /** The snackbar after a submission request settles. */
  function ReplySnackbar(reply: Response<string>): (s: Snackbar)
    ensures s.open
    ensures s.severity == Success <==> reply.Ok?
    ensures s.severity != Info
    ensures reply.Ok? ==> s.message == reply.data
    ensures reply.Err? ==> s.message == FailureMessage(reply.error)
  {
    match reply
    case Ok(message) => Snackbar(true, message, Success)
    case Err(error) => Snackbar(true, FailureMessage(error), Error)
  }

  /** The one request a submission that passes validation issues. */
  function SubmitRequest(update: bool, checkInId: Option<string>, payload: Payload): (r: Request<Payload>)
    ensures r.verb != Get
    ensures r.verb == Patch <==> update
    ensures r.body == payload
    ensures update ==> r.url == CheckInUrlPrefix + TemplateText(checkInId)
    ensures !update ==> r.url == ScheduleUrl
  {
    var url := if update then CheckInUrlPrefix + TemplateText(checkInId) else ScheduleUrl;
    Request(if update then Patch else Post, url, payload)
  }

  /** The snackbar after the dismiss handler runs with `reason`. */
  function Closed(s: Snackbar, reason: string): (r: Snackbar)
    ensures r.message == s.message && r.severity == s.severity
    ensures reason == "clickaway" ==> r == s
    ensures reason != "clickaway" ==> !r.open
  {
    if reason == "clickaway" then s else s.(open := false)
  }

  class CheckInForm {
    const userId: string
    const update: bool
    const checkInId: Option<string>
    var checkInTime: string
    var frequency: string
    var notify: bool
    var loading: bool
    var snackbar: Snackbar

    function CurrentFields(): Fields
      reads this
    {
      Fields(checkInTime, frequency, notify)
    }

    /** The inputs are not rendered while a load is pending, so the fields keep their defaults. */
    ghost predicate Valid()
      reads this
    {
      loading ==> CurrentFields() == DefaultFields()
    }

    /** The form is rendered (instead of "Loading...") exactly when no load is pending. */
    predicate ShowsForm()
      reads this
    {
      !loading
    }

    constructor (userId: string, update: bool, checkInId: Option<string>)
      ensures this.userId == userId && this.update == update && this.checkInId == checkInId
      ensures CurrentFields() == DefaultFields() && !loading && snackbar == InitialSnackbar()
      ensures Valid()
    {
      this.userId, this.update, this.checkInId := userId, update, checkInId;
      checkInTime, frequency, notify := "", "daily", false;
      loading := false;
      snackbar := Snackbar(false, "", Info);
    }

    /**
     * The mount effect: in update mode with an id, start the read of the
     * check-in and show the loading placeholder. Returns the url read, if any.
     * The effect depends only on `update` and `checkInId`, which never change,
     * so it runs once, on the initial state.
     */
    method BeginLoad() returns (readUrl: Option<string>)
      requires Valid() && !loading && CurrentFields() == DefaultFields()
      modifies this`loading
      ensures Valid()
      ensures readUrl.Some? <==> ShouldLoad(update, checkInId)
      ensures readUrl.Some? ==> readUrl.value == CheckInUrlPrefix + checkInId.value && loading
      ensures readUrl.None? ==> !loading
    {
      readUrl := None;
      if update && Truthy(checkInId) {
        loading := true;
        readUrl := Some(CheckInUrlPrefix + TemplateText(checkInId));
      }
    }

    /**
     * The read settles. On success the fields take the formatted time cut to
     * 16 characters, and the frequency and notify flag as received; on any
     * failure they keep their defaults. Either way loading ends.
     */
    method CompleteLoad(format: string -> Option<string>, reply: Response<CheckInData>)
      requires Valid() && loading
      modifies this`checkInTime, this`frequency, this`notify, this`loading
      ensures Valid() && !loading
      ensures Loaded(format, reply).Some? ==> CurrentFields() == Loaded(format, reply).value
      ensures Loaded(format, reply).None? ==> CurrentFields() == DefaultFields()
    {
      match reply {
        case Ok(data) =>
          var formatted := format(data.checkInTime);
          if formatted.Some? {
            checkInTime := Slice(formatted.value, DateTimeLength);
            frequency := data.frequency;
            notify := data.notify;
          }
        case Err(_) =>
      }
      loading := false;
    }

    method SetCheckInTime(value: string)
      requires Valid() && ShowsForm()
      modifies this`checkInTime
      ensures Valid() && checkInTime == value
    {
      checkInTime := value;
    }

    method SetFrequency(value: string)
      requires Valid() && ShowsForm()
      modifies this`frequency
      ensures Valid() && frequency == value
    {
      frequency := value;
    }

    method SetNotify(value: bool)
      requires Valid() && ShowsForm()
      modifies this`notify
      ensures Valid() && notify == value
    {
      notify := value;
    }

    /**
     * Submission at time `now`, where `parse` is `new Date(..)` and `reply`
     * is the server's answer if a request is issued. A past (or present)
     * time is rejected without a request; otherwise exactly one request is
     * issued and its outcome is shown. The fields are never reset.
     */
    method Submit(parse: string -> Option<int>, now: int, reply: Response<string>)
      returns (request: Option<Request<Payload>>)
      requires ShowsForm()
      modifies this`snackbar
      ensures snackbar.open
      ensures IsPast(parse(checkInTime), now) ==>
        request.None? && snackbar == Snackbar(true, PastTimeMessage, Error)
      ensures !IsPast(parse(checkInTime), now) ==>
        && request == Some(SubmitRequest(update, checkInId, Payload(userId, checkInTime, frequency, notify)))
        && snackbar == ReplySnackbar(reply)
      ensures CurrentFields() == old(CurrentFields()) && loading == old(loading)
    {
      var selectedTime := parse(checkInTime);
      if selectedTime.Some? && selectedTime.value <= now {
        snackbar := Snackbar(true, PastTimeMessage, Error);
        return None;
      }
      var url := if update then CheckInUrlPrefix + TemplateText(checkInId) else ScheduleUrl;
      var verb := if update then Patch else Post;
      var data := Payload(userId, checkInTime, frequency, notify);
      request := Some(Request(verb, url, data));
      match reply {
        case Ok(message) =>
          snackbar := Snackbar(true, message, Success);
        case Err(error) =>
          var errorMessage := OrElse(error, UnexpectedErrorMessage);
          snackbar := Snackbar(true, errorMessage, Error);
      }
    }

    /** The snackbar's close handler. */
    method CloseSnackbar(reason: string)
      requires ShowsForm()
      modifies this`snackbar
      ensures snackbar == Closed(old(snackbar), reason)
    {
      if reason == "clickaway" {
        return;
      }
      snackbar := snackbar.(open := false);
    }
  }

  /** A selected time equal to the current time is rejected: the comparison is `<=`. */
  lemma NowIsPast(now: int)
    ensures IsPast(Some(now), now)
    ensures forall t :: t > now ==> !IsPast(Some(t), now)
  {
  }

  /** An unparseable time is never rejected as past, whatever the clock says. */
  lemma UnparseableNeverPast(now: int)
    ensures !IsPast(None, now)
  {
  }

  /**
   * The update lifecycle: mount in update mode with id `id`, let the read
   * settle with `data`, and submit the loaded fields unchanged at time `now`.
   * The loaded time is checked like any other: when it parses at or before
   * now nothing is sent; otherwise the PATCH to the same id carries the
   * frequency and notify flag received and the formatted time cut to 16
   * characters.
   */
  method LoadThenSubmit(userId: string, id: string, data: CheckInData,
                        format: string -> Option<string>, parse: string -> Option<int>,
                        now: int, reply: Response<string>)
    returns (request: Option<Request<Payload>>)
    requires format(data.checkInTime).Some? && id != ""
    ensures var loaded := Slice(format(data.checkInTime).value, DateTimeLength);
      && (IsPast(parse(loaded), now) ==> request.None?)
      && (!IsPast(parse(loaded), now) ==>
            request == Some(Request(Patch, CheckInUrlPrefix + id,
                                    Payload(userId, loaded, data.frequency, data.notify))))
  {
    var form := new CheckInForm(userId, true, Some(id));
    var readUrl := form.BeginLoad();
    form.CompleteLoad(format, Ok(data));
    request := form.Submit(parse, now, reply);
  }
}
