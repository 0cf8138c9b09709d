/**
 * The client's hostel details page: the room key that preselects the first
 * room with a free seat, the Book Now guard, and the guard sequence of
 * confirmBooking that decides whether a booking request is sent and what it
 * carries. The key of a room type selects, among the rooms, exactly the room
 * that the booking endpoint reserves for that type.
 */
module HostelDetailsPage {
  import opened Wrappers
  import opened Seqs
  import opened Text
  import opened HostelSchema
  import BookingController

  /** The option value of a room type: lowercased, with the first "-sharing" removed. */
  function RoomKey(typeName: string): string {
    ReplaceFirst(Lower(typeName), "-sharing", "")
  }

  /** The keys the four room types get. */
  function TypeKey(t: RoomType): string {
    match t
    case Single => "single"
    case TwoSharing => "2"
    case ThreeSharing => "3"
    case FiveSharing => "5"
  }

  function LowerLabel(t: RoomType): string {
    match t
    case Single => "single"
    case TwoSharing => "2-sharing"
    case ThreeSharing => "3-sharing"
    case FiveSharing => "5-sharing"
  }

  lemma LowerLabelOf(t: RoomType)
    ensures Lower(RoomTypeLabel(t)) == LowerLabel(t)
  {
    var s := RoomTypeLabel(t);
    assert Lower(s)[0] == LowerChar(s[0]);
  }

  /** The key of each room type is its lowercased label with "-sharing" cut. */
  lemma RoomKeyOf(t: RoomType)
    ensures RoomKey(RoomTypeLabel(t)) == TypeKey(t)
  {
    LowerLabelOf(t);
    var s := LowerLabel(t);
    if t == Single {
      assert !Contains(s, "-sharing");
    } else {
      var d := TypeKey(t)[0];
      assert s == [d] + "-sharing";
      SharingKey(d);
    }
  }

  /** Cutting "-sharing" from a one-character prefix and "-sharing" leaves the prefix. */
  lemma SharingKey(d: char)
    requires d != '-'
    ensures ReplaceFirst([d] + "-sharing", "-sharing", "") == [d]
  {
    var s := [d] + "-sharing";
    assert OccursAt(s, "-sharing", 1);
    assert s[0..8][0] != "-sharing"[0];
    assert IndexOf(s, "-sharing") == Some(1);
    assert s[..1] + "" + s[9..] == [d];
  }

  /** The key of a type occurs in the lowercased label of that type and of no other. */
  lemma KeyMatchesOwnType(t: RoomType, u: RoomType)
    ensures Contains(Lower(RoomTypeLabel(u)), TypeKey(t)) <==> t == u
  {
    LowerLabelOf(u);
    var s, k := LowerLabel(u), TypeKey(t);
    if t == Single {
      if u == Single {
        assert OccursAt(s, k, 0);
      } else {
        MissingCharNotContained(s, k, 'l');
      }
    } else {
      assert k == [k[0]];
      ContainsChar(s, k[0]);
    }
  }

  predicate HasFreeSeat(r: Room) {
    r.totalSeats > r.occupied
  }

  /** The key preselected on load: that of the first room with a free seat. */
  function InitialKey(rooms: seq<Room>): (r: Option<string>)
    ensures r.None? <==> forall j :: 0 <= j < |rooms| ==> !HasFreeSeat(rooms[j])
    ensures r.Some? ==> exists k :: (
      && 0 <= k < |rooms| && HasFreeSeat(rooms[k])
      && (forall j :: 0 <= j < k ==> !HasFreeSeat(rooms[j]))
      && r.value == RoomKey(RoomTypeLabel(rooms[k].rtype)))
  {
    match FindIndex(rooms, HasFreeSeat)
    case None => None
    case Some(k) => Some(RoomKey(RoomTypeLabel(rooms[k].rtype)))
  }

  predicate KeyFits(key: string, r: Room) {
    Contains(Lower(RoomTypeLabel(r.rtype)), key)
  }

  /** `hostel.rooms.find(r => r.type.toLowerCase().includes(key))`, as a position. */
  function SelectRoom(rooms: seq<Room>, key: string): (k: Option<nat>)
    ensures k.Some? ==> k.value < |rooms| && KeyFits(key, rooms[k.value])
    ensures k.Some? ==> forall j :: 0 <= j < k.value ==> !KeyFits(key, rooms[j])
    ensures k.None? ==> forall j :: 0 <= j < |rooms| ==> !KeyFits(key, rooms[j])
  {
    FindIndex(rooms, (r: Room) => KeyFits(key, r))
  }

  /** The page and the booking endpoint agree on the room: the key of a type
      selects the first room whose type is exactly that type. */
  lemma SelectsTheBookedRoom(rooms: seq<Room>, t: RoomType)
    ensures SelectRoom(rooms, RoomKey(RoomTypeLabel(t))) == BookingController.RoomOfType(rooms, RoomTypeLabel(t))
  {
    RoomKeyOf(t);
    var p := (r: Room) => KeyFits(TypeKey(t), r);
    var q := (r: Room) => RoomTypeLabel(r.rtype) == RoomTypeLabel(t);
    forall j | 0 <= j < |rooms| ensures p(rooms[j]) == q(rooms[j]) {
      KeyMatchesOwnType(t, rooms[j].rtype);
      RoomTypeLabelInjective(rooms[j].rtype, t);
    }
    FindIndexAgree(rooms, p, q);
  }

  /** The rooms the booking modal offers: those with a free seat, in order. */
  function ModalRooms(rooms: seq<Room>): (r: seq<Room>)
    ensures forall x :: x in r <==> x in rooms && HasFreeSeat(x)
    ensures SubsequenceOf(r, rooms)
    ensures forall x :: multiset(r)[x] == if HasFreeSeat(x) then multiset(rooms)[x] else 0
  {
    FilterKeepsCounts(rooms, HasFreeSeat);
    Filter(rooms, HasFreeSeat)
  }

  /** No two rooms share a type. */
  predicate DistinctTypes(rooms: seq<Room>) {
    forall i, j :: 0 <= i < j < |rooms| ==> rooms[i].rtype != rooms[j].rtype
  }

  /** When no two rooms share a type, choosing an offered room's key selects
      that very room, so a request is sent for it. */
  lemma OfferedRoomSelected(rooms: seq<Room>, i: nat)
    requires DistinctTypes(rooms) && i < |rooms| && HasFreeSeat(rooms[i])
    ensures SelectRoom(rooms, RoomKey(RoomTypeLabel(rooms[i].rtype))) == Some(i)
  {
    var t := rooms[i].rtype;
    SelectsTheBookedRoom(rooms, t);
    var k := BookingController.RoomOfType(rooms, RoomTypeLabel(t));
    if k != Some(i) {
      assert k.Some? && k.value < i;
      RoomTypeLabelInjective(rooms[k.value].rtype, t);
    }
  }

  datatype BookNowOutcome = GoToLogin | FullyBooked | ModalOpened

  /** The body of the booking request. */
  datatype BookingPost = BookingPost(hostel: HostelId, roomType: string, checkInDate: string, price: int)

  datatype ConfirmOutcome = NoDate | NoRoomType | NotAvailable | Booked | Failed(message: string)

  class DetailsPage {
    var hostel: Option<Hostel>
    var selectedRoomType: string
    var checkInDate: string
    var showBookingModal: bool
    var bookingLoading: bool

    constructor()
      ensures hostel.None? && selectedRoomType == "" && checkInDate == ""
      ensures !showBookingModal && !bookingLoading
    {
      hostel := None;
      selectedRoomType := "";
      checkInDate := "";
      showBookingModal := false;
      bookingLoading := false;
    }

    /** The hostel arrived: it is shown, and the first room with a free seat
        (if any) preselects its key. */
    method Loaded(h: Hostel)
      modifies this
      ensures hostel == Some(h)
      ensures selectedRoomType == InitialKey(h.rooms).GetOr(old(selectedRoomType))
      ensures checkInDate == old(checkInDate) && showBookingModal == old(showBookingModal)
      ensures bookingLoading == old(bookingLoading)
    {
      hostel := Some(h);
      var key := InitialKey(h.rooms);
      if key.Some? {
        selectedRoomType := key.value;
      }
    }

    /** handleBookNow: a visitor is sent to log in; a hostel whose cached
        figure is 0 is refused; otherwise the booking modal opens. */
    method HandleBookNow(isLoggedIn: bool) returns (outcome: BookNowOutcome)
      modifies this
      ensures outcome == GoToLogin <==> !isLoggedIn
      ensures outcome == FullyBooked <==> isLoggedIn && hostel.Some? && hostel.value.availableSeats == 0
      ensures showBookingModal == (old(showBookingModal) || outcome == ModalOpened)
      ensures hostel == old(hostel) && selectedRoomType == old(selectedRoomType)
      ensures checkInDate == old(checkInDate) && bookingLoading == old(bookingLoading)
    {
      if !isLoggedIn {
        return GoToLogin;
      }
      if hostel.Some? && hostel.value.availableSeats == 0 {
        return FullyBooked;
      }
      showBookingModal := true;
      outcome := ModalOpened;
    }

    /** confirmBooking. `reply` is the outcome of the request: None when it
        succeeds, Some(message) with the server's message ("" when it sent
        none) when it fails. */
    method ConfirmBooking(id: HostelId, reply: Option<string>) returns (sent: Option<BookingPost>, outcome: ConfirmOutcome)
      modifies this
      ensures outcome == NoDate <==> old(checkInDate) == ""
      ensures outcome == NoRoomType <==> old(checkInDate) != "" && selectedRoomType == ""
      ensures outcome.NoDate? || outcome.NoRoomType? ==> bookingLoading == old(bookingLoading)
      ensures !(outcome.NoDate? || outcome.NoRoomType?) ==> !bookingLoading
      ensures sent.Some? <==>
        && old(checkInDate) != "" && selectedRoomType != "" && hostel.Some?
        && var k := SelectRoom(hostel.value.rooms, selectedRoomType);
           k.Some? && hostel.value.rooms[k.value].totalSeats - hostel.value.rooms[k.value].occupied > 0
      ensures sent.Some? ==>
        && var rooms := hostel.value.rooms;
        && var k := SelectRoom(rooms, selectedRoomType).value;
        sent.value == BookingPost(id, RoomTypeLabel(rooms[k].rtype), old(checkInDate), rooms[k].price)
      ensures outcome == Booked <==> sent.Some? && reply.None?
      ensures outcome == Booked ==> !showBookingModal && checkInDate == ""
      ensures outcome != Booked ==> showBookingModal == old(showBookingModal) && checkInDate == old(checkInDate)
      ensures old(checkInDate) != "" && selectedRoomType != "" && sent.None? ==>
        outcome == (if hostel.None? then Failed("Booking failed") else NotAvailable)
      ensures sent.Some? && reply.Some? ==>
        outcome == Failed(if reply.value != "" then reply.value else "Booking failed")
      ensures hostel == old(hostel) && selectedRoomType == old(selectedRoomType)
    {
      if checkInDate == "" {
        return None, NoDate;
      }
      if selectedRoomType == "" {
        return None, NoRoomType;
      }
      bookingLoading := true;
      if hostel.None? {
        // reading the rooms of a hostel that never loaded throws
        bookingLoading := false;
        return None, Failed("Booking failed");
      }
      var rooms := hostel.value.rooms;
      var k := SelectRoom(rooms, selectedRoomType);
      if k.None? || rooms[k.value].totalSeats - rooms[k.value].occupied <= 0 {
        bookingLoading := false;
        return None, NotAvailable;
      }
      var room := rooms[k.value];
      sent := Some(BookingPost(id, RoomTypeLabel(room.rtype), checkInDate, room.price));
      if reply.None? {
        showBookingModal := false;
        checkInDate := "";
        outcome := Booked;
      } else {
        outcome := Failed(if reply.value != "" then reply.value else "Booking failed");
      }
      bookingLoading := false;
    }
  }
}
