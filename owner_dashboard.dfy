/**
 * The owner dashboard's room table: rooms generated from the room plan,
 * classified as Full, Vacant or Partial, added and renumbered by the owner,
 * filtered and searched, and totalled; and the add-hostel form's seat total.
 * Math.random() is a parameter: the k-th draw, a real in [0, 1).
 */
module OwnerDashboard {
  import opened Wrappers
  import opened Seqs
  import opened Text

  datatype RoomStatus = Full | Vacant | Partial

  /** A row of the table. */
  datatype DashRoom = DashRoom(
    id: int,
    roomNumber: string,
    rtype: string,
    totalSeats: int,
    occupied: int,
    available: int,
    status: RoomStatus)

  /** Full when no seat is free, else Vacant when every seat is free, else Partial. */
  function StatusOf(totalSeats: int, available: int): (s: RoomStatus)
    ensures s == Full <==> available == 0
    ensures s == Vacant <==> available != 0 && available == totalSeats
  {
    if available == 0 then Full else if available == totalSeats then Vacant else Partial
  }

  /** For a room whose occupancy is within its seats, the status says how many are taken. */
  lemma StatusMeaning(totalSeats: int, occupied: int)
    requires 0 <= occupied <= totalSeats
    ensures StatusOf(totalSeats, totalSeats - occupied) == Full <==> occupied == totalSeats
    ensures StatusOf(totalSeats, totalSeats - occupied) == Vacant <==> occupied == 0 < totalSeats
    ensures StatusOf(totalSeats, totalSeats - occupied) == Partial <==> 0 < occupied < totalSeats
  {
  }

  /** The derived fields of a row: available seats and status from its seats
      and occupancy, and an id one past its position. */
  predicate RowOk(r: DashRoom, i: int) {
    && r.id == i + 1
    && r.available == r.totalSeats - r.occupied
    && r.status == StatusOf(r.totalSeats, r.available)
  }

  predicate RowsOk(rooms: seq<DashRoom>) {
    forall i :: 0 <= i < |rooms| ==> RowOk(rooms[i], i)
  }

  /** One line of the room plan: the seats per room, the number of rooms as
      typed (None when it does not parse as a number) and the price. */
  datatype PlanEntry = PlanEntry(sharing: nat, rooms: Option<int>, price: int)

  /** The plan the dashboard starts with, in the key order 1, 2, 3, 5. */
  const InitialPlan: seq<PlanEntry> := [
    PlanEntry(1, Some(5), 12000), PlanEntry(2, Some(10), 8000),
    PlanEntry(3, Some(15), 6000), PlanEntry(5, Some(8), 5000)]

  /** `parseInt(rooms) || 0` */
  function RoomCount(e: PlanEntry): int {
    e.rooms.GetOr(0)
  }

  /** The type label of a sharing: 'Single' for 1, otherwise "<n>-Sharing". */
  function SharingLabel(sharing: nat): string {
    if sharing == 1 then "Single" else NatToString(sharing) + "-Sharing"
  }

  /** What the plan asks for, room by room: type label and seats, group after group. */
  datatype Slot = Slot(rtype: string, seats: nat)

  function Repeat<T>(x: T, n: int): (r: seq<T>)
    ensures |r| == if n < 0 then 0 else n
    ensures forall i :: 0 <= i < |r| ==> r[i] == x
  {
    if n <= 0 then [] else Repeat(x, n - 1) + [x]
  }

  function PlanSlots(plan: seq<PlanEntry>): seq<Slot> {
    if plan == [] then []
    else
      var e := plan[|plan| - 1];
      PlanSlots(plan[..|plan| - 1]) + Repeat(Slot(SharingLabel(e.sharing), e.sharing), RoomCount(e))
  }

  function SlotOf(r: DashRoom): Slot
    requires r.totalSeats >= 0
  {
    Slot(r.rtype, r.totalSeats)
  }

  /** The label "Room n". */
  function RoomLabel(n: nat): string {
    "Room " + NatToString(n)
  }

  /** `Math.floor(draw * seats)`: for a draw in [0, 1) a count from 0 to seats - 1. */
  function Occupancy(draw: real, seats: nat): (n: int)
    requires 0.0 <= draw < 1.0 && seats >= 1
    ensures 0 <= n < seats
  {
    var x := draw * (seats as real);
    assert 0.0 <= x < seats as real;
    x.Floor
  }

  /** The second pass over the generated rows: available seats and status. */
  function WithDerived(r: DashRoom): (r': DashRoom)
    ensures r'.available == r.totalSeats - r.occupied
    ensures r'.status == StatusOf(r.totalSeats, r'.available)
    ensures r' == r.(available := r'.available, status := r'.status)
  {
    r.(available := r.totalSeats - r.occupied, status := StatusOf(r.totalSeats, r.totalSeats - r.occupied))
  }

  /** Row i as the generator makes it from slot s and the i-th draw, before the second pass. */
  predicate Generated(r: DashRoom, i: nat, s: Slot, draw: nat -> real) {
    && r.id == i + 1
    && r.roomNumber == RoomLabel(101 + i)
    && r.rtype == s.rtype && r.totalSeats == s.seats
    && s.seats >= 1 && 0.0 <= draw(i) < 1.0
    && r.occupied == Occupancy(draw(i), s.seats)
  }

  predicate SharingsPositive(plan: seq<PlanEntry>) {
    forall k :: 0 <= k < |plan| ==> plan[k].sharing >= 1
  }

  /** The generator's nested loops: for each plan line, its rooms in turn,
      numbered on from "Room 101", each with the next draw's share of its
      seats taken. */
  method GenerateRooms(plan: seq<PlanEntry>, draw: nat -> real) returns (built: seq<DashRoom>)
    requires SharingsPositive(plan)
    requires forall k :: 0.0 <= draw(k) < 1.0
    ensures |built| == |PlanSlots(plan)|
    ensures forall i :: 0 <= i < |built| ==> Generated(built[i], i, PlanSlots(plan)[i], draw)
  {
    built := [];
    var roomNumber: nat := 101;
    var g := 0;
    while g < |plan|
      invariant 0 <= g <= |plan|
      invariant roomNumber == 101 + |built|
      invariant |built| == |PlanSlots(plan[..g])|
      invariant forall i :: 0 <= i < |built| ==> Generated(built[i], i, PlanSlots(plan[..g])[i], draw)
    {
      var e := plan[g];
      var seats := e.sharing;
      var slot := Slot(SharingLabel(seats), seats);
      ghost var before := PlanSlots(plan[..g]);
      ghost var prior := built;
      assert PlanSlots(plan[..g + 1]) == before + Repeat(slot, RoomCount(e)) by {
        assert plan[..g + 1][..g] == plan[..g];
      }
      built, roomNumber := AppendRooms(built, roomNumber, slot, RoomCount(e), draw);
      forall i | 0 <= i < |built|
        ensures Generated(built[i], i, (before + Repeat(slot, RoomCount(e)))[i], draw)
      {
        if i < |prior| {
          assert built[i] == built[..|prior|][i];
        }
      }
      g := g + 1;
    }
    assert plan[..|plan|] == plan;
  }

  /** The inner loop: the rooms of one plan line, appended in turn. */
  method AppendRooms(built: seq<DashRoom>, roomNumber: nat, slot: Slot, numRooms: int, draw: nat -> real)
    returns (built': seq<DashRoom>, roomNumber': nat)
    requires roomNumber == 101 + |built| && slot.seats >= 1
    requires forall k :: 0.0 <= draw(k) < 1.0
    ensures roomNumber' == 101 + |built'|
    ensures |built'| == |built| + |Repeat(slot, numRooms)|
    ensures built'[..|built|] == built
    ensures forall j :: |built| <= j < |built'| ==> Generated(built'[j], j, slot, draw)
  {
    built', roomNumber' := built, roomNumber;
    var i := 1;
    while i <= numRooms
      invariant 1 <= i <= (if numRooms < 0 then 1 else numRooms + 1)
      invariant roomNumber' == 101 + |built'|
      invariant |built'| == |built| + i - 1
      invariant built'[..|built|] == built
      invariant forall j :: |built| <= j < |built'| ==> Generated(built'[j], j, slot, draw)
    {
      var occupied := Occupancy(draw(|built'|), slot.seats);
      var room := DashRoom(|built'| + 1, RoomLabel(roomNumber'), slot.rtype, slot.seats, occupied, 0, Partial);
      assert Generated(room, |built'|, slot, draw);
      built' := built' + [room];
      roomNumber' := roomNumber' + 1;
      i := i + 1;
    }
  }

  class Dashboard {
    var rooms: seq<DashRoom>
    var plan: seq<PlanEntry>
    var hostelName: string
    var images: seq<string>

    ghost predicate Valid()
      reads this
    {
      RowsOk(rooms)
    }

    /** The initial table: the generated rows of the initial plan with their
        available seats and status filled in. */
    constructor (draw: nat -> real)
      requires forall k :: 0.0 <= draw(k) < 1.0
      ensures Valid()
      ensures plan == InitialPlan && hostelName == "" && images == []
      ensures |rooms| == |PlanSlots(InitialPlan)|
      ensures forall i :: 0 <= i < |rooms| ==> WithDerived(rooms[i]) == rooms[i]
      ensures forall i :: 0 <= i < |rooms| ==> Generated(rooms[i].(available := 0, status := Partial), i, PlanSlots(InitialPlan)[i], draw)
    {
      var built := GenerateRooms(InitialPlan, draw);
      rooms := seq(|built|, i requires 0 <= i < |built| => WithDerived(built[i]));
      plan := InitialPlan;
      hostelName := "";
      images := [];
    }

    /** The add-room form: an empty room number and an occupancy above the
        seats are refused with the table unchanged; otherwise the row is
        appended with the next id. An occupancy that does not parse counts as 0. */
    method AddRoom(form: NewRoomForm) returns (r: Result<DashRoom, AddRoomError>)
      requires Valid()
      modifies this
      ensures Valid()
      ensures plan == old(plan) && hostelName == old(hostelName) && images == old(images)
      ensures r == Err(EmptyRoomNumber) <==> form.roomNumber == ""
      ensures r == Err(OccupiedExceedsTotal) <==> form.roomNumber != "" && form.occupied.GetOr(0) > form.totalSeats
      ensures r.Err? ==> rooms == old(rooms)
      ensures r.Ok? ==>
        && rooms == old(rooms) + [r.value]
        && r.value.id == |old(rooms)| + 1
        && r.value.roomNumber == form.roomNumber && r.value.rtype == form.rtype
        && r.value.totalSeats == form.totalSeats && r.value.occupied == form.occupied.GetOr(0)
    {
      if form.roomNumber == "" {
        return Err(EmptyRoomNumber);
      }
      var totalSeats := form.totalSeats;
      var occupied := form.occupied.GetOr(0);
      if occupied > totalSeats {
        return Err(OccupiedExceedsTotal);
      }
      var row := DashRoom(|rooms| + 1, form.roomNumber, form.rtype, totalSeats, occupied,
                          totalSeats - occupied, StatusOf(totalSeats, totalSeats - occupied));
      rooms := rooms + [row];
      r := Ok(row);
    }

    /** Renaming a room: an empty number is refused; otherwise only the
        roomNumber of the row with that id changes. */
    method EditRoomNumber(id: int, newNumber: string) returns (ok: bool)
      requires Valid()
      modifies this
      ensures Valid()
      ensures plan == old(plan) && hostelName == old(hostelName) && images == old(images)
      ensures ok <==> newNumber != ""
      ensures |rooms| == |old(rooms)|
      ensures forall i :: 0 <= i < |rooms| ==>
        rooms[i] == if ok && old(rooms)[i].id == id then old(rooms)[i].(roomNumber := newNumber) else old(rooms)[i]
    {
      if newNumber == "" {
        return false;
      }
      var old_rooms := rooms;
      rooms := seq(|old_rooms|, i requires 0 <= i < |old_rooms| =>
        if old_rooms[i].id == id then old_rooms[i].(roomNumber := newNumber) else old_rooms[i]);
      ok := true;
    }

    /** The add-hostel form: refused when the plan's seat total is 0,
        otherwise the form is cleared and every plan line reset to 0 rooms at
        price 0. The room table is not rebuilt. */
    method AddHostel() returns (r: Result<int, AddHostelError>)
      requires Valid()
      modifies this
      ensures Valid()
      ensures rooms == old(rooms)
      ensures r.Err? <==> PlanSeatTotal(old(plan)) == 0
      ensures r.Err? ==> plan == old(plan) && hostelName == old(hostelName) && images == old(images)
      ensures r.Ok? ==> r.value == PlanSeatTotal(old(plan)) && hostelName == "" && images == [] && plan == ClearedPlan(old(plan))
    {
      var total := PlanSeatTotal(plan);
      if total == 0 {
        return Err(NoRooms);
      }
      hostelName := "";
      images := [];
      plan := ClearedPlan(plan);
      r := Ok(total);
    }
  }

  datatype NewRoomForm = NewRoomForm(roomNumber: string, rtype: string, totalSeats: int, occupied: Option<int>)

  datatype AddRoomError = EmptyRoomNumber | OccupiedExceedsTotal

  datatype AddHostelError = NoRooms

  /** A row added through the form is Full, Vacant or Partial as its
      occupancy says, like a generated one. */
  lemma AddedRowClassified(rooms: seq<DashRoom>, row: DashRoom)
    requires RowsOk(rooms + [row])
    requires 0 <= row.occupied <= row.totalSeats
    ensures row.status == Full <==> row.occupied == row.totalSeats
    ensures row.status == Vacant <==> row.occupied == 0 < row.totalSeats
  {
    assert RowOk((rooms + [row])[|rooms|], |rooms|);
    StatusMeaning(row.totalSeats, row.occupied);
  }

  /** A generated row always has a free seat, so it is never Full. */
  lemma GeneratedNeverFull(r: DashRoom, i: nat, s: Slot, draw: nat -> real)
    requires Generated(r, i, s, draw)
    ensures WithDerived(r).status != Full
  {
  }

  /** `sharing * (parseInt(rooms) || 0)` summed over the plan. */
  function LineSeats(e: PlanEntry): int {
    e.sharing * RoomCount(e)
  }

  /** The seat total of the plan; it is never negative while no room count is. */
  function PlanSeatTotal(plan: seq<PlanEntry>): (n: int)
    ensures (forall e :: e in plan ==> RoomCount(e) >= 0) ==> n >= 0
  {
    if forall e :: e in plan ==> RoomCount(e) >= 0 then
      SumNonNegative(plan, LineSeats);
      Sum(plan, LineSeats)
    else Sum(plan, LineSeats)
  }

  /** The plan after a hostel is added: the same sharings, no rooms, price 0. */
  function ClearedPlan(plan: seq<PlanEntry>): (p: seq<PlanEntry>)
    ensures |p| == |plan|
    ensures forall k :: 0 <= k < |p| ==> p[k] == PlanEntry(plan[k].sharing, Some(0), 0)
  {
    seq(|plan|, k requires 0 <= k < |plan| => PlanEntry(plan[k].sharing, Some(0), 0))
  }

  /** A cleared plan adds up to no seats, so submitting the form again right
      after a hostel was added is refused. */
  lemma {:induction false} ClearedPlanHasNoSeats(plan: seq<PlanEntry>)
    ensures PlanSeatTotal(ClearedPlan(plan)) == 0
    decreases |plan|
  {
    if plan != [] {
      assert ClearedPlan(plan)[1..] == ClearedPlan(plan[1..]);
      ClearedPlanHasNoSeats(plan[1..]);
    }
  }

  /** When every line has a non-negative number of rooms, the plan's seat
      total is the number of seats its generated table would have. */
  lemma {:induction false} PlanSeatsAreSlotSeats(plan: seq<PlanEntry>)
    requires forall k :: 0 <= k < |plan| ==> RoomCount(plan[k]) >= 0
    ensures PlanSeatTotal(plan) == Sum(PlanSlots(plan), (s: Slot) => s.seats as int)
    decreases |plan|
  {
    if plan != [] {
      var init := plan[..|plan| - 1];
      var e := plan[|plan| - 1];
      PlanSeatsAreSlotSeats(init);
      SumSnoc(plan);
      var slot := Slot(SharingLabel(e.sharing), e.sharing);
      SumAppend(PlanSlots(init), Repeat(slot, RoomCount(e)), (s: Slot) => s.seats as int);
      RepeatSeats(slot, RoomCount(e));
    }
  }

  lemma {:induction false} SumSnoc(plan: seq<PlanEntry>)
    requires plan != []
    ensures PlanSeatTotal(plan) == PlanSeatTotal(plan[..|plan| - 1]) + LineSeats(plan[|plan| - 1])
  {
    assert plan == plan[..|plan| - 1] + [plan[|plan| - 1]];
    SumAppend(plan[..|plan| - 1], [plan[|plan| - 1]], LineSeats);
  }

  lemma {:induction false} RepeatSeats(slot: Slot, n: int)
    requires n >= 0
    ensures Sum(Repeat(slot, n), (s: Slot) => s.seats as int) == n * slot.seats
    decreases n
  {
    if n > 0 {
      RepeatSeats(slot, n - 1);
      SumAppend(Repeat(slot, n - 1), [slot], (s: Slot) => s.seats as int);
    }
  }

  /** The search: the type filter ('All' lets every type through) and a
      case-insensitive search in the room number, in table order. */
  predicate Shown(r: DashRoom, filterType: string, query: string) {
    (filterType == "All" || r.rtype == filterType) && Contains(Lower(r.roomNumber), Lower(query))
  }

  function FilteredRooms(rooms: seq<DashRoom>, filterType: string, query: string): (r: seq<DashRoom>)
    ensures forall x :: x in r <==> x in rooms && Shown(x, filterType, query)
    ensures SubsequenceOf(r, rooms)
    ensures forall x :: multiset(r)[x] == if Shown(x, filterType, query) then multiset(rooms)[x] else 0
  {
    var shown := (x: DashRoom) => Shown(x, filterType, query);
    FilterKeepsCounts(rooms, shown);
    Filter(rooms, shown)
  }

  /** With the filter on 'All' and an empty search, the whole table is shown. */
  lemma ShowAll(rooms: seq<DashRoom>)
    ensures FilteredRooms(rooms, "All", "") == rooms
  {
    forall x | x in rooms ensures Shown(x, "All", "") {
      assert OccursAt(Lower(x.roomNumber), Lower(""), 0);
    }
    FilterAll(rooms, (x: DashRoom) => Shown(x, "All", ""));
  }

  function RoomSeats(r: DashRoom): int { r.totalSeats }
  function RoomOccupied(r: DashRoom): int { r.occupied }
  function RoomAvailable(r: DashRoom): int { r.available }

  /** The three totals above the table. */
  function Totals(rooms: seq<DashRoom>): (t: (int, int, int)) {
    (Sum(rooms, RoomSeats), Sum(rooms, RoomOccupied), Sum(rooms, RoomAvailable))
  }

  /** On a well-formed table the available total is the seat total less the occupied total. */
  lemma TotalsAgree(rooms: seq<DashRoom>)
    requires RowsOk(rooms)
    ensures Totals(rooms).2 == Totals(rooms).0 - Totals(rooms).1
  {
    forall x | x in rooms ensures RoomAvailable(x) == RoomSeats(x) - RoomOccupied(x) {
      var i :| 0 <= i < |rooms| && rooms[i] == x;
      assert RowOk(rooms[i], i);
    }
    SumPointwise(rooms, RoomAvailable, RoomSeats, RoomOccupied);
  }
}
