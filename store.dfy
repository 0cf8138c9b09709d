/**
 * The database the controllers work on: the hostel, booking, review and
 * user collections. Each request handler runs to completion before the next
 * one starts.
 */
module Store {
  import opened Wrappers
  import opened HostelSchema
  import opened BookingSchema
  import opened UserSchema

  /** A review document, with the fields createReview writes. */
  datatype Review = Review(user: UserId, hostel: HostelId, rating: int, comment: string)

  /** Every stored hostel's cached availableSeats agrees with its rooms. */
  ghost predicate AllSeatsConsistent(hostels: map<HostelId, Hostel>) {
    forall id :: id in hostels ==> SeatsConsistent(hostels[id])
  }

  class Database {
    var hostels: map<HostelId, Hostel>
    /** A booking's id is its position: bookings are never deleted. */
    var bookings: seq<Booking>
    var reviews: seq<Review>
    var users: map<UserId, User>
    /** Where new ids come from; ids are never reused. */
    var nextHostelId: HostelId
    var nextUserId: UserId

    ghost predicate Valid()
      reads this
    {
      && (forall id :: id in hostels ==> id < nextHostelId)
      && (forall id :: id in users ==> id < nextUserId)
      && EmailsUnique(users)
    }

    constructor ()
      ensures Valid()
      ensures hostels == map[] && bookings == [] && reviews == [] && users == map[]
      ensures nextHostelId == 0 && nextUserId == 0
    {
      hostels, bookings, reviews, users := map[], [], [], map[];
      nextHostelId, nextUserId := 0, 0;
    }

    /** Saving a new user document: validation, the hashing hook, then the
        unique index on email. */
    method InsertUser(inp: UserInput, now: nat, hash: string -> string) returns (r: Result<UserId, UserError>)
      requires Valid()
      modifies this
      ensures Valid()
      ensures hostels == old(hostels) && bookings == old(bookings) && reviews == old(reviews)
      ensures !UserInputValid(inp) ==> r.Err? && r.error == NewUser(inp, now, hash).error
      ensures UserInputValid(inp) && EmailTaken(old(users), NewUser(inp, now, hash).value.email) ==> r == Err(DuplicateEmail)
      ensures r.Err? ==> users == old(users)
      ensures r.Ok? ==> r.value !in old(users) && users == old(users)[r.value := NewUser(inp, now, hash).value]
      ensures UserInputValid(inp) && !EmailTaken(old(users), NewUser(inp, now, hash).value.email) ==> r.Ok?
      ensures nextHostelId == old(nextHostelId)
      ensures r.Err? ==> nextUserId == old(nextUserId)
      ensures r.Ok? ==> r.value == old(nextUserId) && nextUserId == old(nextUserId) + 1
    {
      var created := NewUser(inp, now, hash);
      if created.Err? {
        return Err(created.error);
      }
      var u := created.value;
      if EmailTaken(users, u.email) {
        return Err(DuplicateEmail);
      }
      var id := nextUserId;
      assert id !in users;
      NewEmailKeepsUnique(users, id, u);
      users := users[id := u];
      nextUserId := id + 1;
      r := Ok(id);
    }
  }
}
