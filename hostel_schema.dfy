/**
 * The hostel document: its enumerations, its required fields, its defaults,
 * and the per-room seat arithmetic the controllers keep the cached
 * availableSeats figure in step with.
 */
module HostelSchema {
  import opened Wrappers
  import Seqs
  import opened Text

  type UserId = nat
  type HostelId = nat

  datatype HostelType = BoysHostel | GirlsHostel

  function HostelTypeLabel(t: HostelType): string {
    match t
    case BoysHostel => "Boys Hostel"
    case GirlsHostel => "Girls Hostel"
  }

  /** The enum validator of the hostel's type field. */
  function ParseHostelType(s: string): (r: Option<HostelType>)
    ensures r.Some? <==> s == "Boys Hostel" || s == "Girls Hostel"
    ensures r.Some? ==> HostelTypeLabel(r.value) == s
  {
    if s == "Boys Hostel" then Some(BoysHostel)
    else if s == "Girls Hostel" then Some(GirlsHostel)
    else None
  }

  datatype RoomType = Single | TwoSharing | ThreeSharing | FiveSharing

  function RoomTypeLabel(t: RoomType): string {
    match t
    case Single => "Single"
    case TwoSharing => "2-Sharing"
    case ThreeSharing => "3-Sharing"
    case FiveSharing => "5-Sharing"
  }

  /** The enum validator of a room's type field. */
  function ParseRoomType(s: string): (r: Option<RoomType>)
    ensures r.Some? <==> s in {"Single", "2-Sharing", "3-Sharing", "5-Sharing"}
    ensures r.Some? ==> RoomTypeLabel(r.value) == s
  {
    if s == "Single" then Some(Single)
    else if s == "2-Sharing" then Some(TwoSharing)
    else if s == "3-Sharing" then Some(ThreeSharing)
    else if s == "5-Sharing" then Some(FiveSharing)
    else None
  }

  /** Distinct room types have distinct labels, so a label names one type. */
  lemma {:induction false} RoomTypeLabelInjective(t: RoomType, u: RoomType)
    ensures RoomTypeLabel(t) == RoomTypeLabel(u) <==> t == u
  {
    if t != u {
      var a, b := RoomTypeLabel(t), RoomTypeLabel(u);
      assert a[0] != b[0] || |a| != |b|;
    }
  }

  datatype Room = Room(rtype: RoomType, totalSeats: int, occupied: int, price: int)

  /** A room as the owner submits it, before the schema default for occupied
      applies; totalSeats and occupied may be missing from the JSON. */
  datatype RoomInput = RoomInput(rtype: string, totalSeats: Option<int>, occupied: Option<int>, price: int)

  datatype Hostel = Hostel(
    name: string,
    location: string,
    htype: HostelType,
    price: int,
    images: seq<string>,
    facilities: seq<string>,
    availableSeats: int,
    rating: real,
    owner: UserId,
    rooms: seq<Room>)

  /** The seats of a room nobody occupies. */
  function Free(r: Room): int {
    r.totalSeats - r.occupied
  }

  predicate RoomInBounds(r: Room) {
    0 <= r.occupied <= r.totalSeats
  }

  /** The sum over the rooms of totalSeats - occupied. */
  function FreeSeats(rooms: seq<Room>): int {
    Seqs.Sum(rooms, Free)
  }

  /** The cached figure agrees with the rooms. */
  predicate SeatsConsistent(h: Hostel) {
    h.availableSeats == FreeSeats(h.rooms)
  }

  /** `room.totalSeats - (room.occupied || 0)` over the submitted rooms; it is
      a number only when the room gives its totalSeats (SeatsGiven). */
  function InputFree(r: RoomInput): int {
    r.totalSeats.GetOr(0) - r.occupied.GetOr(0)
  }

  function InputFreeSeats(rooms: seq<RoomInput>): int {
    Seqs.Sum(rooms, InputFree)
  }

  /** Every submitted room gives its totalSeats, so the seat sum is a number. */
  predicate SeatsGiven(rooms: seq<RoomInput>) {
    forall i :: 0 <= i < |rooms| ==> rooms[i].totalSeats.Some?
  }

  /** Every submitted room has an enum type and its seats. */
  predicate RoomTypesValid(rooms: seq<RoomInput>) {
    forall i :: 0 <= i < |rooms| ==> ParseRoomType(rooms[i].rtype).Some? && rooms[i].totalSeats.Some?
  }

  /** The stored room: the enum type and the default of 0 for a missing occupied. */
  function StoreRoom(r: RoomInput): (room: Room)
    requires ParseRoomType(r.rtype).Some? && r.totalSeats.Some?
    ensures RoomTypeLabel(room.rtype) == r.rtype
    ensures room.totalSeats == r.totalSeats.value && room.price == r.price
    ensures r.occupied.None? ==> room.occupied == 0
    ensures r.occupied.Some? ==> room.occupied == r.occupied.value
  {
    Room(ParseRoomType(r.rtype).value, r.totalSeats.value, r.occupied.GetOr(0), r.price)
  }

  function StoreRooms(rooms: seq<RoomInput>): (stored: seq<Room>)
    requires RoomTypesValid(rooms)
    ensures |stored| == |rooms|
    ensures forall i :: 0 <= i < |rooms| ==> stored[i] == StoreRoom(rooms[i])
  {
    seq(|rooms|, i requires 0 <= i < |rooms| => StoreRoom(rooms[i]))
  }

  /** Summing the submitted rooms with `occupied || 0` gives the free seats of the stored rooms. */
  lemma {:induction false} StoredFreeSeats(rooms: seq<RoomInput>)
    requires RoomTypesValid(rooms)
    ensures FreeSeats(StoreRooms(rooms)) == InputFreeSeats(rooms)
    decreases |rooms|
  {
    if rooms != [] {
      assert StoreRooms(rooms)[1..] == StoreRooms(rooms[1..]);
      StoredFreeSeats(rooms[1..]);
    }
  }

  /** The fields that reach `Hostel.create`; an empty string or None stands
      for a missing one, and a number field may hold NaN, which the cast refuses. */
  datatype HostelInput = HostelInput(
    name: string,
    location: string,
    htype: string,
    price: Option<Numeric>,
    images: seq<string>,
    facilities: seq<string>,
    availableSeats: Option<Numeric>,
    owner: Option<UserId>,
    rooms: seq<RoomInput>)

  /** The path of the first field that fails validation. */
  datatype SchemaError = ValidationError(path: string)

  predicate InputValid(inp: HostelInput) {
    && inp.name != ""
    && inp.location != ""
    && ParseHostelType(inp.htype).Some?
    && inp.price.Some? && inp.price.value.Value?
    && (inp.availableSeats.None? || inp.availableSeats.value.Value?)
    && inp.owner.Some?
    && RoomTypesValid(inp.rooms)
  }

  /** Schema validation and defaults of a new hostel document. */
  function NewHostel(inp: HostelInput): (r: Result<Hostel, SchemaError>)
    ensures r.Ok? <==> InputValid(inp)
    ensures r.Ok? ==> HostelTypeLabel(r.value.htype) == inp.htype
    ensures r.Ok? ==> r.value.name == inp.name && r.value.location == inp.location
    ensures r.Ok? ==> r.value.price == inp.price.value.v && r.value.owner == inp.owner.value
    ensures r.Ok? ==> r.value.images == inp.images && r.value.facilities == inp.facilities
    ensures r.Ok? ==> r.value.availableSeats == (if inp.availableSeats.None? then 0 else inp.availableSeats.value.v)
    ensures r.Ok? ==> r.value.rating == 0.0
    ensures r.Ok? ==> r.value.rooms == StoreRooms(inp.rooms)
  {
    if inp.name == "" then Err(ValidationError("name"))
    else if inp.location == "" then Err(ValidationError("location"))
    else if ParseHostelType(inp.htype).None? then Err(ValidationError("type"))
    else if inp.price.None? || inp.price.value.NotANumber? then Err(ValidationError("price"))
    else if inp.availableSeats.Some? && inp.availableSeats.value.NotANumber? then Err(ValidationError("availableSeats"))
    else if inp.owner.None? then Err(ValidationError("owner"))
    else if !RoomTypesValid(inp.rooms) then Err(ValidationError("rooms"))
    else Ok(Hostel(inp.name, inp.location, ParseHostelType(inp.htype).value, inp.price.value.v,
                   inp.images, inp.facilities, if inp.availableSeats.None? then 0 else inp.availableSeats.value.v, 0.0,
                   inp.owner.value, StoreRooms(inp.rooms)))
  }
}
