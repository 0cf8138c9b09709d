/**
 * Booking requests against the seat ledger: createBooking takes a seat from
 * the first room of the requested type, updateBookingStatus writes only the
 * status, and the two listings filter the booking collection.
 */
module BookingController {
  import opened Wrappers
  import opened Seqs
  import opened HostelSchema
  import opened BookingSchema
  import opened Store

  datatype BookingRequest = BookingRequest(hostel: HostelId, roomType: string, checkInDate: Option<nat>)

  /** The replies other than success; ServerError is the 500 reply of a thrown exception. */
  datatype BookingError = HostelNotFound | RoomTypeNotFound | NoSeatsAvailable | BookingNotFound | AccessDenied | ServerError

  function Message(e: BookingError): string {
    match e
    case HostelNotFound => "Hostel not found"
    case RoomTypeNotFound => "Room type not found"
    case NoSeatsAvailable => "No seats available"
    case BookingNotFound => "Booking not found"
    case AccessDenied => "Access denied"
    case ServerError => "Server error"
  }

  /** `hostelDoc.rooms.find(r => r.type === roomType)`, as a position. */
  function RoomOfType(rooms: seq<Room>, roomType: string): (k: Option<nat>)
    ensures k.Some? ==> k.value < |rooms| && RoomTypeLabel(rooms[k.value].rtype) == roomType
    ensures k.Some? ==> forall j :: 0 <= j < k.value ==> RoomTypeLabel(rooms[j].rtype) != roomType
    ensures k.None? ==> forall j :: 0 <= j < |rooms| ==> RoomTypeLabel(rooms[j].rtype) != roomType
  {
    FindIndex(rooms, (r: Room) => RoomTypeLabel(r.rtype) == roomType)
  }

  /** `room.occupied += 1; hostelDoc.availableSeats -= 1` on the loaded hostel. */
  function Reserve(h: Hostel, k: nat): (h': Hostel)
    requires k < |h.rooms|
    ensures |h'.rooms| == |h.rooms|
    ensures h'.rooms[k] == h.rooms[k].(occupied := h.rooms[k].occupied + 1)
    ensures forall j :: 0 <= j < |h.rooms| && j != k ==> h'.rooms[j] == h.rooms[j]
    ensures h'.availableSeats == h.availableSeats - 1
    ensures h' == h.(rooms := h'.rooms, availableSeats := h'.availableSeats)
  {
    var room := h.rooms[k];
    h.(rooms := h.rooms[k := room.(occupied := room.occupied + 1)],
       availableSeats := h.availableSeats - 1)
  }

  /** A reservation takes one seat from the rooms and one from the cached
      figure, so a hostel whose figure agreed with its rooms still does. */
  lemma {:induction false} ReserveKeepsLedger(h: Hostel, k: nat)
    requires k < |h.rooms|
    ensures FreeSeats(Reserve(h, k).rooms) == FreeSeats(h.rooms) - 1
    ensures SeatsConsistent(h) ==> SeatsConsistent(Reserve(h, k))
  {
    SumUpdate(h.rooms, k, Reserve(h, k).rooms[k], Free);
  }

  /** Taking a seat from a room with a free seat keeps every room within
      0 <= occupied <= totalSeats that was within it. */
  lemma ReserveKeepsBounds(h: Hostel, k: nat)
    requires k < |h.rooms| && Free(h.rooms[k]) > 0
    ensures forall j :: 0 <= j < |h.rooms| && RoomInBounds(h.rooms[j]) ==> RoomInBounds(Reserve(h, k).rooms[j])
  {
  }

  method CreateBooking(db: Database, requester: UserId, req: BookingRequest, now: nat)
    returns (r: Result<Booking, BookingError>)
    requires db.Valid()
    modifies db
    ensures db.Valid()
    ensures db.reviews == old(db.reviews) && db.users == old(db.users)
    ensures db.nextHostelId == old(db.nextHostelId) && db.nextUserId == old(db.nextUserId)
    ensures r.Err? ==> db.hostels == old(db.hostels) && db.bookings == old(db.bookings)
    ensures r == Err(HostelNotFound) <==> req.hostel !in old(db.hostels)
    ensures req.hostel in old(db.hostels) ==>
      var h := old(db.hostels)[req.hostel];
      match RoomOfType(h.rooms, req.roomType)
      case None => r == Err(RoomTypeNotFound)
      case Some(k) =>
        if Free(h.rooms[k]) <= 0 then r == Err(NoSeatsAvailable)
        else if req.checkInDate.None? then r == Err(ServerError)
        else
          && r == Ok(Booking(requester, req.hostel, req.roomType, req.checkInDate.value,
                             Some(Pending), h.rooms[k].price, now, now))
          && db.bookings == old(db.bookings) + [r.value]
          && db.hostels == old(db.hostels)[req.hostel := Reserve(h, k)]
    ensures AllSeatsConsistent(old(db.hostels)) ==> AllSeatsConsistent(db.hostels)
  {
    if req.hostel !in db.hostels {
      return Err(HostelNotFound);
    }
    var h := db.hostels[req.hostel];
    var found := RoomOfType(h.rooms, req.roomType);
    if found.None? {
      return Err(RoomTypeNotFound);
    }
    var k := found.value;
    var room := h.rooms[k];
    if room.totalSeats - room.occupied <= 0 {
      return Err(NoSeatsAvailable);
    }
    var created := NewBooking(requester, req.hostel, req.roomType, req.checkInDate, room.price, now);
    if created.Err? {
      return Err(ServerError);
    }
    db.bookings := db.bookings + [created.value];
    ReserveKeepsLedger(h, k);
    db.hostels := db.hostels[req.hostel := Reserve(h, k)];
    r := Ok(created.value);
  }

  /** Only the owner of the booking's hostel may set its status, which is
      saved against the booking as stored. The rooms and the cached seat figure are left as
      they are, for Cancelled too: no seat is given back. */
  method UpdateBookingStatus(db: Database, requester: UserId, id: nat, status: Option<string>, now: nat)
    returns (r: Result<Booking, BookingError>)
    requires db.Valid()
    modifies db
    ensures db.Valid()
    ensures db.hostels == old(db.hostels)
    ensures db.reviews == old(db.reviews) && db.users == old(db.users)
    ensures db.nextHostelId == old(db.nextHostelId) && db.nextUserId == old(db.nextUserId)
    ensures r.Err? ==> db.bookings == old(db.bookings)
    ensures r == Err(BookingNotFound) <==> id >= |old(db.bookings)|
    ensures id < |old(db.bookings)| ==>
      var b := old(db.bookings)[id];
      if b.hostel !in db.hostels then r == Err(ServerError)
      else if db.hostels[b.hostel].owner != requester then r == Err(AccessDenied)
      else match SetStatus(b, status, now)
        case None => r == Err(ServerError)
        case Some(b') => r == Ok(b') && db.bookings == old(db.bookings)[id := b']
  {
    if id >= |db.bookings| {
      return Err(BookingNotFound);
    }
    var b := db.bookings[id];
    if b.hostel !in db.hostels {
      // the hostel was deleted: reading its owner throws
      return Err(ServerError);
    }
    if db.hostels[b.hostel].owner != requester {
      return Err(AccessDenied);
    }
    var updated := SetStatus(b, status, now);
    if updated.None? {
      return Err(ServerError);
    }
    db.bookings := db.bookings[id := updated.value];
    r := Ok(updated.value);
  }

  /** `Booking.find({ user })`: the requester's bookings as loaded, in
      stored order. */
  function UserBookings(bookings: seq<Booking>, user: UserId): (r: seq<Booking>)
    ensures forall b :: b in r <==> b in LoadAll(bookings) && b.user == user
    ensures forall b :: b in bookings && b.user == user ==> Loaded(b) in r
    ensures forall b :: b in r ==> b.status.Some?
    ensures SubsequenceOf(r, LoadAll(bookings))
    ensures forall b :: multiset(r)[b] == if b.user == user then multiset(LoadAll(bookings))[b] else 0
  {
    var loaded := LoadAll(bookings);
    forall b | b in bookings && b.user == user ensures Loaded(b) in loaded {
      var i :| 0 <= i < |bookings| && bookings[i] == b;
      assert loaded[i] == Loaded(b);
    }
    FilterKeepsCounts(loaded, ByUser(user));
    Filter(loaded, ByUser(user))
  }

  function ByUser(user: UserId): Booking -> bool {
    (b: Booking) => b.user == user
  }

  function OnHostels(ids: set<HostelId>): Booking -> bool {
    (b: Booking) => b.hostel in ids
  }

  /** `Hostel.find({ owner }).map(h => h._id)` */
  function OwnedHostelIds(hostels: map<HostelId, Hostel>, owner: UserId): (ids: set<HostelId>)
    ensures forall id :: id in ids <==> id in hostels && hostels[id].owner == owner
  {
    set id | id in hostels && hostels[id].owner == owner
  }

  /** `Booking.find({ hostel: { $in: hostelIds } })`: the bookings of the owner's hostels. */
  function OwnerBookings(hostels: map<HostelId, Hostel>, bookings: seq<Booking>, owner: UserId): (r: seq<Booking>)
    ensures forall b :: b in r <==> b in LoadAll(bookings) && b.hostel in hostels && hostels[b.hostel].owner == owner
    ensures forall b :: b in bookings && b.hostel in hostels && hostels[b.hostel].owner == owner ==> Loaded(b) in r
    ensures forall b :: b in r ==> b.status.Some?
    ensures SubsequenceOf(r, LoadAll(bookings))
    ensures forall b :: multiset(r)[b] ==
                        if b.hostel in hostels && hostels[b.hostel].owner == owner then multiset(LoadAll(bookings))[b] else 0
  {
    var ids := OwnedHostelIds(hostels, owner);
    var loaded := LoadAll(bookings);
    forall b | b in bookings && b.hostel in ids ensures Loaded(b) in loaded {
      var i :| 0 <= i < |bookings| && bookings[i] == b;
      assert loaded[i] == Loaded(b);
    }
    FilterKeepsCounts(loaded, OnHostels(ids));
    Filter(loaded, OnHostels(ids))
  }

  /** A new booking is listed last among its user's bookings and among the
      bookings of its hostel's owner. */
  lemma {:induction false} NewBookingListed(hostels: map<HostelId, Hostel>, bookings: seq<Booking>, b: Booking)
    requires b.hostel in hostels
    ensures UserBookings(bookings + [b], b.user) == UserBookings(bookings, b.user) + [Loaded(b)]
    ensures OwnerBookings(hostels, bookings + [b], hostels[b.hostel].owner)
            == OwnerBookings(hostels, bookings, hostels[b.hostel].owner) + [Loaded(b)]
  {
    LoadAllAppend(bookings, [b]);
    var loaded, l := LoadAll(bookings), Loaded(b);
    assert LoadAll(bookings + [b]) == loaded + [l] by {
      assert LoadAll([b]) == [l];
    }
    var mine := ByUser(b.user);
    FilterAppend(loaded, [l], mine);
    assert Filter([l], mine) == [l] by {
      assert mine(l);
      assert [l][1..] == [];
    }
    assert UserBookings(bookings + [b], b.user) == Filter(loaded + [l], mine);
    var ids := OwnedHostelIds(hostels, hostels[b.hostel].owner);
    var theirs := OnHostels(ids);
    FilterAppend(loaded, [l], theirs);
    assert Filter([l], theirs) == [l] by {
      assert theirs(l);
      assert [l][1..] == [];
    }
    assert OwnerBookings(hostels, bookings + [b], hostels[b.hostel].owner) == Filter(loaded + [l], theirs);
  }
}
