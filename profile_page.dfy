/**
 * The signed-in profile page of the client: the owner statistics computed
 * from the hostel listing and the owner's bookings, the percentage shown as
 * the occupancy rate, and the edit form's validation and save guard.
 */
module ProfilePage {
  import opened Wrappers
  import opened Seqs
  import opened Validation

  /** The `owner` field of a hostel as the page receives it in JSON. The
      listing endpoint populates it, so it arrives as an object carrying the
      owner's id and name, or as null when that user no longer exists; an
      unpopulated document would carry the bare id string instead. */
  datatype OwnerField = OwnerObject(id: string, name: string) | OwnerIdString(id: string) | OwnerNull

  /** A room as received; a missing count reads as 0 in the sums. */
  datatype ClientRoom = ClientRoom(totalSeats: Option<int>, occupied: Option<int>)

  datatype ListedHostel = ListedHostel(owner: OwnerField, rooms: seq<ClientRoom>)

  datatype ListedBooking = ListedBooking(status: string)

  /** The listing's owner fields are always populated objects or null. */
  predicate Populated(listing: seq<ListedHostel>) {
    forall i :: 0 <= i < |listing| ==> !listing[i].owner.OwnerIdString?
  }

  /** `h.owner === user._id` as written: a strict comparison of the owner
      field with the user's id string, true only for a bare id string. */
  predicate StrictOwnerMatch(h: ListedHostel, userId: string) {
    h.owner.OwnerIdString? && h.owner.id == userId
  }

  function OwnedAsWritten(listing: seq<ListedHostel>, userId: string): (r: seq<ListedHostel>)
    ensures SubsequenceOf(r, listing)
  {
    Filter(listing, h => StrictOwnerMatch(h, userId))
  }

  /** With a populated listing the as-written filter finds no hostel at all,
      whoever the owner is, so every owner statistic stays 0. */
  lemma {:induction false} OwnedAsWrittenIsEmpty(listing: seq<ListedHostel>, userId: string)
    requires Populated(listing)
    ensures OwnedAsWritten(listing, userId) == []
    decreases |listing|
  {
    if listing != [] {
      assert !StrictOwnerMatch(listing[0], userId);
      OwnedAsWrittenIsEmpty(listing[1..], userId);
    }
  }

  /** A listing holding one hostel of the signed-in owner: the as-written
      filter drops it, the corrected one keeps it. */
  lemma OwnerFilterCounterexample()
    ensures var listing := [ListedHostel(OwnerObject("u1", "Ramesh"), [ClientRoom(Some(4), Some(1))])];
      && OwnedAsWritten(listing, "u1") == []
      && OwnedHostels(listing, "u1") == listing
  {
    var listing := [ListedHostel(OwnerObject("u1", "Ramesh"), [ClientRoom(Some(4), Some(1))])];
    OwnedAsWrittenIsEmpty(listing, "u1");
    assert OwnerIdOf(listing[0].owner) == Some("u1");
    FilterAll(listing, h => OwnsHostel(h, "u1"));
  }

  /** The id of the owner, however the field arrived. */
  function OwnerIdOf(o: OwnerField): Option<string> {
    match o
    case OwnerObject(id, _) => Some(id)
    case OwnerIdString(id) => Some(id)
    case OwnerNull => None
  }

  predicate OwnsHostel(h: ListedHostel, userId: string) {
    OwnerIdOf(h.owner) == Some(userId)
  }

  /** The owned hostels as evidently intended: those whose owner id is the
      signed-in user's id, in listing order. */
  function OwnedHostels(listing: seq<ListedHostel>, userId: string): (r: seq<ListedHostel>)
    ensures forall h :: h in r <==> h in listing && OwnerIdOf(h.owner) == Some(userId)
    ensures SubsequenceOf(r, listing)
    ensures forall h :: multiset(r)[h] == if OwnsHostel(h, userId) then multiset(listing)[h] else 0
  {
    var owned := h => OwnsHostel(h, userId);
    FilterKeepsCounts(listing, owned);
    Filter(listing, owned)
  }

  function RoomTotal(r: ClientRoom): int { r.totalSeats.GetOr(0) }
  function RoomOccupied(r: ClientRoom): int { r.occupied.GetOr(0) }
  function HostelTotal(h: ListedHostel): int { Sum(h.rooms, RoomTotal) }
  function HostelOccupied(h: ListedHostel): int { Sum(h.rooms, RoomOccupied) }

  predicate IsPending(b: ListedBooking) { b.status == "Pending" }

  datatype OwnerStats = OwnerStats(totalSeats: int, occupiedSeats: int, availableSeats: int, pendingBookings: nat)

  /** The nested accumulation over the owned hostels' rooms, and the count of
      pending bookings among those the owner endpoint returned. */
  method ComputeOwnerStats(owned: seq<ListedHostel>, bookings: seq<ListedBooking>) returns (st: OwnerStats)
    ensures st.totalSeats == Sum(owned, HostelTotal)
    ensures st.occupiedSeats == Sum(owned, HostelOccupied)
    ensures st.availableSeats == st.totalSeats - st.occupiedSeats
    ensures st.pendingBookings == Count(bookings, IsPending)
  {
    var totalSeats, occupiedSeats := 0, 0;
    var i := 0;
    while i < |owned|
      invariant 0 <= i <= |owned|
      invariant totalSeats == Sum(owned[..i], HostelTotal)
      invariant occupiedSeats == Sum(owned[..i], HostelOccupied)
    {
      var rooms := owned[i].rooms;
      var j := 0;
      while j < |rooms|
        invariant 0 <= j <= |rooms|
        invariant totalSeats == Sum(owned[..i], HostelTotal) + Sum(rooms[..j], RoomTotal)
        invariant occupiedSeats == Sum(owned[..i], HostelOccupied) + Sum(rooms[..j], RoomOccupied)
      {
        totalSeats := totalSeats + rooms[j].totalSeats.GetOr(0);
        occupiedSeats := occupiedSeats + rooms[j].occupied.GetOr(0);
        SumPrefix(rooms, j, RoomTotal);
        SumPrefix(rooms, j, RoomOccupied);
        j := j + 1;
      }
      assert rooms[..j] == rooms;
      SumPrefix(owned, i, HostelTotal);
      SumPrefix(owned, i, HostelOccupied);
      i := i + 1;
    }
    assert owned[..i] == owned;
    st := OwnerStats(totalSeats, occupiedSeats, totalSeats - occupiedSeats, Count(bookings, IsPending));
  }

  /** The owner part of fetchProfileData, with the owned hostels chosen by
      the corrected filter. */
  method LoadOwnerStats(listing: seq<ListedHostel>, userId: string, bookings: seq<ListedBooking>) returns (st: OwnerStats)
    ensures st.totalSeats == Sum(OwnedHostels(listing, userId), HostelTotal)
    ensures st.occupiedSeats == Sum(OwnedHostels(listing, userId), HostelOccupied)
    ensures st.availableSeats == st.totalSeats - st.occupiedSeats
    ensures st.pendingBookings == Count(bookings, IsPending)
  {
    st := ComputeOwnerStats(OwnedHostels(listing, userId), bookings);
  }

  /** Rooms whose counts are present and within bounds. */
  predicate RoomSound(r: ClientRoom) {
    r.totalSeats.Some? && r.occupied.Some? && 0 <= r.occupied.value <= r.totalSeats.value
  }

  predicate HostelSound(h: ListedHostel) {
    forall r :: r in h.rooms ==> RoomSound(r)
  }

  function RoomFree(r: ClientRoom): int { RoomTotal(r) - RoomOccupied(r) }
  function HostelFree(h: ListedHostel): int { HostelTotal(h) - HostelOccupied(h) }

  /** When every room's counts are sound, no figure is negative and the
      occupied seats never exceed the total. */
  lemma {:induction false} SoundStatsInRange(owned: seq<ListedHostel>)
    requires forall h :: h in owned ==> HostelSound(h)
    ensures 0 <= Sum(owned, HostelOccupied) <= Sum(owned, HostelTotal)
  {
    forall h | h in owned ensures HostelFree(h) >= 0 && HostelOccupied(h) >= 0 {
      SumPointwise(h.rooms, RoomFree, RoomTotal, RoomOccupied);
      SumNonNegative(h.rooms, RoomFree);
      SumNonNegative(h.rooms, RoomOccupied);
    }
    SumPointwise(owned, HostelFree, HostelTotal, HostelOccupied);
    SumNonNegative(owned, HostelFree);
    SumNonNegative(owned, HostelOccupied);
  }

  /** The occupancy percentage before rounding: 0 when there are no seats. */
  function OccupancyRate(st: OwnerStats): (r: real)
    ensures st.totalSeats <= 0 ==> r == 0.0
  {
    if st.totalSeats > 0 then (st.occupiedSeats as real / st.totalSeats as real) * 100.0 else 0.0
  }

  lemma OccupancyRateInRange(st: OwnerStats)
    requires 0 <= st.occupiedSeats <= st.totalSeats
    ensures 0.0 <= OccupancyRate(st) <= 100.0
  {
    if st.totalSeats > 0 {
      var q := st.occupiedSeats as real / st.totalSeats as real;
      assert q * st.totalSeats as real == st.occupiedSeats as real;
      assert 0.0 <= q <= 1.0;
    }
  }

  /** validateForm: the name rule, then the phone rule; None when both pass. */
  function ValidateForm(name: string, phone: string): (r: Option<string>)
    ensures r.None? <==> LongEnough(name, 2) && ValidPhone(phone)
    ensures !LongEnough(name, 2) ==> r == Some(NameMessage)
    ensures LongEnough(name, 2) && !ValidPhone(phone) ==> r == Some(PhoneMessage)
  {
    if !LongEnough(name, 2) then Some(NameMessage)
    else if !ValidPhone(phone) then Some(PhoneMessage)
    else None
  }

  /** A form that passes carries a name and a phone, so the update request
      overwrites both fields of the stored profile. */
  lemma AcceptedFormSendsBoth(name: string, phone: string)
    requires ValidateForm(name, phone).None?
    ensures name != "" && phone != "" && |name| >= 2
  {
  }

  /** The fields of the profile page's state that the save touches. */
  class ProfileEditor {
    var name: string
    var phone: string
    var editMode: bool
    var error: string

    constructor(name: string, phone: string)
      ensures this.name == name && this.phone == phone
      ensures !editMode && error == ""
    {
      this.name := name;
      this.phone := phone;
      editMode := false;
      error := "";
    }

    /** handleSave. `reply` is the outcome of the PUT request: None when it
        succeeds, Some(message) with the server's message ("" when it sent
        none) when it fails. The request is returned when one is sent. */
    method HandleSave(reply: Option<string>) returns (sent: Option<ProfileRequest>)
      modifies this
      ensures name == old(name) && phone == old(phone)
      ensures sent.Some? <==> ValidateForm(name, phone).None?
      ensures sent.Some? ==> sent.value == ProfileRequest(name, phone)
      ensures ValidateForm(name, phone).Some? ==>
        error == ValidateForm(name, phone).value && editMode == old(editMode)
      ensures sent.Some? && reply.None? ==> error == "" && !editMode
      ensures sent.Some? && reply.Some? ==>
        error == (if reply.value != "" then reply.value else "Update failed") && editMode == old(editMode)
    {
      var err := ValidateForm(name, phone);
      if err.Some? {
        error := err.value;
        return None;
      }
      sent := Some(ProfileRequest(name, phone));
      if reply.None? {
        editMode := false;
        error := "";
      } else {
        error := if reply.value != "" then reply.value else "Update failed";
      }
    }
  }

  datatype ProfileRequest = ProfileRequest(name: string, phone: string)
}
