/** The booking document: its status enumeration, its default status, its
    required fields and its timestamps. */
module BookingSchema {
  import opened Wrappers
  import opened HostelSchema

  datatype Status = Pending | Confirmed | Cancelled

  function StatusLabel(s: Status): string {
    match s
    case Pending => "Pending"
    case Confirmed => "Confirmed"
    case Cancelled => "Cancelled"
  }

  /** The enum validator of the status field. */
  function ParseStatus(s: string): (r: Option<Status>)
    ensures r.Some? <==> s in {"Pending", "Confirmed", "Cancelled"}
    ensures r.Some? ==> StatusLabel(r.value) == s
  {
    if s == "Pending" then Some(Pending)
    else if s == "Confirmed" then Some(Confirmed)
    else if s == "Cancelled" then Some(Cancelled)
    else None
  }

  /** Days are the model's dates; createdAt and updatedAt are clock readings.
      A status of None is a document whose status path has been cleared: a
      status update without a status stores and returns one, and a later
      query reads it back as Pending, see Loaded. */
  datatype Booking = Booking(
    user: UserId,
    hostel: HostelId,
    roomType: string,
    checkInDate: nat,
    status: Option<Status>,
    price: int,
    createdAt: nat,
    updatedAt: nat)

  datatype BookingSchemaError = MissingRoomType | MissingCheckInDate

  /** `Booking.create(...)`: validation of the required fields, the default
      status and the timestamps taken from the clock reading `now`. */
  function NewBooking(user: UserId, hostel: HostelId, roomType: string, checkInDate: Option<nat>,
                      price: int, now: nat): (r: Result<Booking, BookingSchemaError>)
    ensures r.Ok? <==> roomType != "" && checkInDate.Some?
    ensures r.Ok? ==> r.value.status == Some(Pending)
    ensures r.Ok? ==> r.value.user == user && r.value.hostel == hostel && r.value.roomType == roomType
    ensures r.Ok? ==> r.value.checkInDate == checkInDate.value && r.value.price == price
    ensures r.Ok? ==> r.value.createdAt == now && r.value.updatedAt == now
  {
    if roomType == "" then Err(MissingRoomType)
    else if checkInDate.None? then Err(MissingCheckInDate)
    else Ok(Booking(user, hostel, roomType, checkInDate.value, Some(Pending), price, now, now))
  }

  /** A booking as `findById` and `find` hand it back: Mongoose applies the
      schema default to a status path the stored document lacks, so a
      cleared status reads as Pending. */
  function Loaded(b: Booking): (l: Booking)
    ensures l.status.Some?
    ensures b.status.Some? ==> l == b
    ensures b.status.None? ==> l == b.(status := Some(Pending))
  {
    b.(status := Some(b.status.GetOr(Pending)))
  }

  /** Every document of a query result, as loaded. */
  function LoadAll(s: seq<Booking>): (r: seq<Booking>)
    ensures |r| == |s|
    ensures forall i :: 0 <= i < |s| ==> r[i] == Loaded(s[i])
  {
    seq(|s|, i requires 0 <= i < |s| => Loaded(s[i]))
  }

  /** Loading the documents of two results one after the other is loading
      the two results joined. */
  lemma LoadAllAppend(a: seq<Booking>, b: seq<Booking>)
    ensures LoadAll(a + b) == LoadAll(a) + LoadAll(b)
  {
    assert |LoadAll(a + b)| == |LoadAll(a) + LoadAll(b)|;
    forall i | 0 <= i < |a| + |b| ensures LoadAll(a + b)[i] == (LoadAll(a) + LoadAll(b))[i] {
      if i < |a| {
        assert (a + b)[i] == a[i];
      } else {
        assert (a + b)[i] == b[i - |a|];
      }
    }
  }

  /** `booking.status = status; booking.save()`. A status missing from the
      request body (None) assigns undefined, which clears the path and which
      the enum validator lets through; any other status must be in the enum.
      The timestamps plugin stamps updatedAt only when the save modifies the
      document. Mongoose decides that against the stored value, not the
      default it filled in on loading: assigning undefined to a status the
      document lacks is no change, while assigning "Pending" to it is. So b
      is the booking as stored. */
  function SetStatus(b: Booking, status: Option<string>, now: nat): (r: Option<Booking>)
    ensures r.Some? <==> status.None? || ParseStatus(status.value).Some?
    ensures r.Some? && status.Some? ==> r.value.status.Some? && StatusLabel(r.value.status.value) == status.value
    ensures r.Some? && status.None? ==> r.value.status.None?
    ensures r.Some? ==> r.value.updatedAt == (if r.value.status == b.status then b.updatedAt else now)
    ensures r.Some? ==> r.value == b.(status := r.value.status, updatedAt := r.value.updatedAt)
  {
    if status.Some? && ParseStatus(status.value).None? then None
    else
      var s := if status.None? then None else ParseStatus(status.value);
      if s == b.status then Some(b) else Some(b.(status := s, updatedAt := now))
  }

  /** Sending the same status again, in a later request on the booking the
      first one stored, changes nothing more. */
  lemma SetStatusIdempotent(b: Booking, status: Option<string>, now: nat, later: nat)
    requires SetStatus(b, status, now).Some?
    ensures SetStatus(SetStatus(b, status, now).value, status, later) == SetStatus(b, status, now)
  {
  }

  /** For a booking stored with a status, the loaded document is the stored
      one, so the change check against either gives the same save. */
  lemma StoredStatusLoadsUnchanged(b: Booking, status: Option<string>, now: nat)
    requires b.status.Some?
    ensures SetStatus(Loaded(b), status, now) == SetStatus(b, status, now)
  {
  }

  /** A request without a status clears the stored status, stamping
      updatedAt when there was one. The cleared status reads back as
      Pending, yet a second request without a status saves nothing, since
      the stored status is already absent; a request with "Pending" stores
      it and stamps updatedAt. */
  lemma ClearedStatusReadsPending(b: Booking, now: nat, later: nat)
    ensures var first := SetStatus(b, None, now);
      && first.Some? && first.value.status.None?
      && (b.status.Some? ==> first.value.updatedAt == now)
      && (b.status.None? ==> first.value == b)
      && Loaded(first.value).status == Some(Pending)
      && SetStatus(first.value, None, later) == first
      && SetStatus(first.value, Some("Pending"), later)
         == Some(first.value.(status := Some(Pending), updatedAt := later))
  {
  }
}
