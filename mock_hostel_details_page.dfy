/**
 * The earlier hostel details page that works on sample hostels: the four
 * fixed room categories priced from the hostel's base price, the Book Now
 * guard, and confirmBooking, which appends to the shared list of mock
 * bookings and stores a copy of it.
 */
module MockHostelDetailsPage {
  import opened Wrappers
  import opened Seqs

  datatype SampleHostel = SampleHostel(id: int, name: string, price: int)

  datatype Category = Category(rooms: nat, price: int, available: int, title: string)

  /** The category keys, in the order the allocation object lists them. */
  const CategoryKeys: seq<string> := ["single", "double", "triple", "fiveSharing"]

  /** roomAllocation: the four categories and their prices relative to the base price. */
  function Allocation(base: int): (m: map<string, Category>)
    ensures m.Keys == {"single", "double", "triple", "fiveSharing"}
    ensures m["single"].price == base + 2000 && m["double"].price == base
    ensures m["triple"].price == base - 500 && m["fiveSharing"].price == base - 1000
    ensures forall k :: k in m ==> m[k].available > 0
  {
    map[
      "single" := Category(5, base + 2000, 3, "Single Room"),
      "double" := Category(10, base, 8, "2-Sharing"),
      "triple" := Category(15, base - 500, 12, "3-Sharing"),
      "fiveSharing" := Category(8, base - 1000, 5, "5-Sharing")]
  }

  function CategoryAvailable(base: int, key: string): int
    requires key in Allocation(base)
  {
    Allocation(base)[key].available
  }

  function AvailableOf(base: int, keys: seq<string>): int
    requires forall k :: k in keys ==> k in Allocation(base)
    decreases |keys|
  {
    if keys == [] then 0 else CategoryAvailable(base, keys[0]) + AvailableOf(base, keys[1..])
  }

  /** totalAvailable: the sum of available over the four categories; the
      figures are fixed, so it is 28 whatever the hostel. */
  function TotalAvailable(base: int): (n: int)
    ensures n == 28
  {
    AvailableOf(base, CategoryKeys)
  }

  datatype MockBooking = MockBooking(
    id: nat,
    hostelId: int,
    hostelName: string,
    roomType: string,
    price: int,
    checkIn: string,
    status: string,
    bookedAt: string)

  /** The module-level list of mock bookings and the copy of it kept in
      local storage. */
  class MockBookingStore {
    var bookings: seq<MockBooking>
    var stored: seq<MockBooking>

    /** The list starts as the stored copy (empty when there is none). */
    constructor(saved: seq<MockBooking>)
      ensures bookings == saved && stored == saved
    {
      bookings := saved;
      stored := saved;
    }

    predicate InSync()
      reads this
    {
      stored == bookings
    }

    method Push(b: MockBooking)
      modifies this
      ensures bookings == old(bookings) + [b]
      ensures InSync()
    {
      bookings := bookings + [b];
      stored := bookings;
    }
  }

  datatype BookNowOutcome = GoToLogin | FullyBooked | ModalOpened

  datatype ConfirmOutcome = NoDate | UnknownCategory | NoSeats(title: string) | Booked(booking: MockBooking)

  class MockDetailsPage {
    const hostel: SampleHostel
    var selectedRoomType: string
    var checkInDate: string
    var showBookingModal: bool

    constructor(hostel: SampleHostel)
      ensures this.hostel == hostel
      ensures selectedRoomType == "double" && checkInDate == "" && !showBookingModal
    {
      this.hostel := hostel;
      selectedRoomType := "double";
      checkInDate := "";
      showBookingModal := false;
    }

    /** handleBookNow: a visitor is sent to log in, and a hostel with no
        seat left would be refused; since the categories always offer 28
        seats, a signed-in user always gets the modal. */
    method HandleBookNow(isLoggedIn: bool) returns (outcome: BookNowOutcome)
      modifies this
      ensures outcome == GoToLogin <==> !isLoggedIn
      ensures outcome == FullyBooked <==> isLoggedIn && TotalAvailable(hostel.price) == 0
      ensures outcome != FullyBooked
      ensures showBookingModal == (old(showBookingModal) || outcome == ModalOpened)
      ensures selectedRoomType == old(selectedRoomType) && checkInDate == old(checkInDate)
    {
      if !isLoggedIn {
        return GoToLogin;
      }
      if TotalAvailable(hostel.price) == 0 {
        return FullyBooked;
      }
      showBookingModal := true;
      outcome := ModalOpened;
    }

    /** confirmBooking. `now` stands for Date.now() (the new booking's id)
        and `today` for the date part of the current time. A key outside the
        four categories makes the handler throw before anything changes. */
    method ConfirmBooking(store: MockBookingStore, now: nat, today: string) returns (outcome: ConfirmOutcome)
      modifies this, store
      ensures outcome == NoDate <==> old(checkInDate) == ""
      ensures outcome == UnknownCategory <==>
        old(checkInDate) != "" && selectedRoomType !in Allocation(hostel.price)
      ensures !outcome.Booked? ==>
        && store.bookings == old(store.bookings) && store.stored == old(store.stored)
        && checkInDate == old(checkInDate) && showBookingModal == old(showBookingModal)
      ensures outcome.Booked? <==> old(checkInDate) != "" && selectedRoomType in Allocation(hostel.price)
      ensures outcome.Booked? ==>
        && var c := Allocation(hostel.price)[selectedRoomType];
        && outcome.booking == MockBooking(now, hostel.id, hostel.name, c.title, c.price, old(checkInDate), "Confirmed", today)
        && store.bookings == old(store.bookings) + [outcome.booking]
        && store.InSync()
        && !showBookingModal && checkInDate == ""
      ensures selectedRoomType == old(selectedRoomType)
    {
      if checkInDate == "" {
        return NoDate;
      }
      var allocation := Allocation(hostel.price);
      if selectedRoomType !in allocation {
        return UnknownCategory;
      }
      var c := allocation[selectedRoomType];
      if c.available <= 0 {
        return NoSeats(c.title);
      }
      var b := MockBooking(now, hostel.id, hostel.name, c.title, c.price, checkInDate, "Confirmed", today);
      store.Push(b);
      showBookingModal := false;
      checkInDate := "";
      outcome := Booked(b);
    }
  }
}
