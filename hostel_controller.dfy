/**
 * The hostel handlers: the listing filter, creation from an owner's form,
 * the owner-only partial update and delete. Creation and update both leave
 * the cached availableSeats equal to the free seats of the stored rooms.
 */
module HostelController {
  import opened Wrappers
  import opened Text
  import opened HostelSchema
  import opened Store

  /** The listing's query string; an empty string is a parameter not given. */
  datatype ListingQuery = ListingQuery(location: string, htype: string, maxPrice: Option<int>)

  /** The filter object handed to `Hostel.find`: one optional criterion per parameter. */
  datatype HostelFilter = HostelFilter(location: Option<string>, htype: Option<string>, maxPrice: Option<int>)

  /** A case-insensitive substring match, the meaning of `{ $regex: pat, $options: 'i' }` for a pattern without metacharacters. */
  predicate ContainsIgnoringCase(s: string, pat: string) {
    Contains(Lower(s), Lower(pat))
  }

  /** A hostel passes a filter when it meets every criterion the filter holds. */
  predicate Admits(f: HostelFilter, h: Hostel) {
    && (f.location.Some? ==> ContainsIgnoringCase(h.location, f.location.value))
    && (f.htype.Some? ==> HostelTypeLabel(h.htype) == f.htype.value)
    && (f.maxPrice.Some? ==> h.price <= f.maxPrice.value)
  }

  /** What a listing query asks for, criterion by criterion, with absent parameters asking nothing. */
  predicate MatchesQuery(q: ListingQuery, h: Hostel) {
    && (q.location == "" || ContainsIgnoringCase(h.location, q.location))
    && (q.htype == "" || HostelTypeLabel(h.htype) == q.htype)
    && (q.maxPrice.None? || h.price <= q.maxPrice.value)
  }

  /** Fills the filter one parameter at a time, adding a criterion only for a parameter that was given. */
  method BuildFilter(q: ListingQuery) returns (f: HostelFilter)
    ensures f.location.Some? <==> q.location != ""
    ensures f.htype.Some? <==> q.htype != ""
    ensures f.maxPrice == q.maxPrice
    ensures forall h :: Admits(f, h) <==> MatchesQuery(q, h)
  {
    f := HostelFilter(None, None, None);
    if q.location != "" {
      f := f.(location := Some(q.location));
    }
    if q.htype != "" {
      f := f.(htype := Some(q.htype));
    }
    if q.maxPrice.Some? {
      f := f.(maxPrice := q.maxPrice);
    }
  }

  /** The ids of the stored hostels a query lists. */
  function Listing(hostels: map<HostelId, Hostel>, q: ListingQuery): (ids: set<HostelId>)
    ensures forall id :: id in ids <==> id in hostels && MatchesQuery(q, hostels[id])
  {
    set id | id in hostels && MatchesQuery(q, hostels[id])
  }

  /** A query with no parameters lists every hostel. */
  lemma EmptyQueryListsAll(hostels: map<HostelId, Hostel>)
    ensures Listing(hostels, ListingQuery("", "", None)) == hostels.Keys
  {
  }

  /** `Hostel.findById`: the hostel, or "Hostel not found". */
  function HostelById(hostels: map<HostelId, Hostel>, id: HostelId): (r: Option<Hostel>)
    ensures r.Some? <==> id in hostels
    ensures r.Some? ==> r.value == hostels[id]
  {
    if id in hostels then Some(hostels[id]) else None
  }

  /** A list field of the multipart form, sent as JSON text: the value
      `JSON.parse` gives, or Malformed when it throws. */
  datatype Json<T> = Parsed(value: T) | Malformed

  /** The multipart form of a create or update. A text field left empty or
      not sent is `""`; the price is its raw text, None when not sent; a list
      field is None when it is not sent or empty, both of which the handlers
      treat as absent. */
  datatype HostelForm = HostelForm(
    name: string,
    location: string,
    htype: string,
    price: Option<string>,
    facilities: Option<Json<seq<string>>>,
    rooms: Option<Json<seq<RoomInput>>>)

  /** NoImages is the 400 reply, AccessDenied the 403 reply, ServerError the
      500 reply of a failed parse or save. */
  datatype HostelError = NoImages | AccessDenied | ServerError

  /** `JSON.parse` does not throw on the field. */
  predicate Parses<T>(f: Option<Json<T>>) {
    f.None? || f.value.Parsed?
  }

  /** `field ? JSON.parse(field) : []` */
  function ParsedOr<T>(f: Option<Json<seq<T>>>): seq<T>
    requires Parses(f)
  {
    if f.None? then [] else f.value.value
  }

  /** `Number(price)`; `Number(undefined)` is NaN. */
  function PriceNumber(price: Option<string>): Numeric {
    if price.None? then NotANumber else ToNumber(price.value)
  }

  /** The document createHostel hands to `Hostel.create`, or None when one of
      the `JSON.parse` calls throws: image paths from the uploads, parsed
      lists defaulting to empty, the price through `Number`, the requester as
      owner, and the seat total of the submitted rooms, which is NaN as soon
      as one room lacks its totalSeats. */
  function CreateInput(form: HostelForm, files: seq<string>, requester: UserId): (inp: Option<HostelInput>)
    ensures inp.Some? <==> Parses(form.facilities) && Parses(form.rooms)
    ensures inp.Some? ==> inp.value.images == files && inp.value.owner == Some(requester)
    ensures inp.Some? ==> inp.value.rooms == ParsedOr(form.rooms) && inp.value.facilities == ParsedOr(form.facilities)
    ensures inp.Some? ==> inp.value.price == Some(PriceNumber(form.price))
    ensures inp.Some? ==> inp.value.availableSeats.Some?
    ensures inp.Some? && SeatsGiven(inp.value.rooms) ==> inp.value.availableSeats.value == Value(InputFreeSeats(inp.value.rooms))
    ensures inp.Some? && !SeatsGiven(inp.value.rooms) ==> inp.value.availableSeats.value == NotANumber
  {
    if !Parses(form.facilities) || !Parses(form.rooms) then None
    else
      var rooms := ParsedOr(form.rooms);
      var seats := if SeatsGiven(rooms) then Value(InputFreeSeats(rooms)) else NotANumber;
      Some(HostelInput(form.name, form.location, form.htype, Some(PriceNumber(form.price)), files,
                       ParsedOr(form.facilities), Some(seats), Some(requester), rooms))
  }

  /** The hostel createHostel stores, or None when parsing or validation fails. */
  function Created(form: HostelForm, files: seq<string>, requester: UserId): (h: Option<Hostel>)
    ensures h.Some? <==> CreateInput(form, files, requester).Some? && NewHostel(CreateInput(form, files, requester).value).Ok?
    ensures h.Some? ==> h.value == NewHostel(CreateInput(form, files, requester).value).value
  {
    match CreateInput(form, files, requester)
    case None => None
    case Some(inp) => if NewHostel(inp).Ok? then Some(NewHostel(inp).value) else None
  }

  /** A new hostel's cached seat figure agrees with its stored rooms. */
  lemma CreatedSeatsConsistent(form: HostelForm, files: seq<string>, requester: UserId)
    requires Created(form, files, requester).Some?
    ensures SeatsConsistent(Created(form, files, requester).value)
  {
    StoredFreeSeats(ParsedOr(form.rooms));
  }

  /** A created hostel's price is what `Number` makes of the submitted text:
      the field was sent, and an empty one gives 0. */
  lemma CreatedPrice(form: HostelForm, files: seq<string>, requester: UserId)
    requires Created(form, files, requester).Some?
    ensures form.price.Some? && ToNumber(form.price.value) == Value(Created(form, files, requester).value.price)
    ensures form.price == Some("") ==> Created(form, files, requester).value.price == 0
  {
  }

  /** A well-formed form with an empty price field creates a hostel priced 0. */
  lemma EmptyPriceCreates(name: string, location: string, htype: string, files: seq<string>, requester: UserId)
    requires name != "" && location != "" && ParseHostelType(htype).Some?
    ensures var h := Created(HostelForm(name, location, htype, Some(""), None, None), files, requester);
      h.Some? && h.value.price == 0 && h.value.rooms == [] && h.value.availableSeats == 0
  {
    assert Trim("") == "";
  }

  method CreateHostel(db: Database, requester: UserId, form: HostelForm, files: seq<string>)
    returns (r: Result<HostelId, HostelError>)
    requires db.Valid()
    modifies db
    ensures db.Valid()
    ensures db.bookings == old(db.bookings) && db.reviews == old(db.reviews) && db.users == old(db.users)
    ensures db.nextUserId == old(db.nextUserId)
    ensures r == Err(NoImages) <==> files == []
    ensures r == Err(ServerError) <==> files != [] && Created(form, files, requester).None?
    ensures r.Err? ==> db.hostels == old(db.hostels) && db.nextHostelId == old(db.nextHostelId)
    ensures r.Ok? ==>
      && r.value == old(db.nextHostelId) && db.nextHostelId == old(db.nextHostelId) + 1
      && r.value !in old(db.hostels)
      && db.hostels == old(db.hostels)[r.value := Created(form, files, requester).value]
      && SeatsConsistent(db.hostels[r.value])
    ensures AllSeatsConsistent(old(db.hostels)) ==> AllSeatsConsistent(db.hostels)
  {
    if files == [] {
      return Err(NoImages);
    }
    var created := Created(form, files, requester);
    if created.None? {
      return Err(ServerError);
    }
    CreatedSeatsConsistent(form, files, requester);
    r := Ok(db.nextHostelId);
    db.hostels := db.hostels[db.nextHostelId := created.value];
    db.nextHostelId := db.nextHostelId + 1;
  }

  /** The requester may change a hostel only when it exists and they own it. */
  predicate MayChange(hostels: map<HostelId, Hostel>, id: HostelId, requester: UserId) {
    id in hostels && hostels[id].owner == requester
  }

  /** `if (price)`: a non-empty price field replaces the stored price. */
  predicate PriceGiven(form: HostelForm) {
    form.price.Some? && form.price.value != ""
  }

  /** What an update needs not to answer 500: the list fields parse, a new
      type and new rooms belong to their enumerations, new rooms give their
      seats (otherwise availableSeats is NaN), and a new price is a number. */
  predicate UpdateValid(form: HostelForm) {
    && (form.htype == "" || ParseHostelType(form.htype).Some?)
    && (PriceGiven(form) ==> ToNumber(form.price.value).Value?)
    && Parses(form.facilities) && Parses(form.rooms)
    && (form.rooms.Some? ==> RoomTypesValid(form.rooms.value.value))
  }

  /** The hostel after an accepted update: every field the form fills
      replaces the stored one, the new images are appended to the old, and
      the free-seat figure is recomputed from the resulting rooms. */
  function Updated(h: Hostel, form: HostelForm, files: seq<string>): (h': Hostel)
    requires UpdateValid(form)
    ensures h'.name == (if form.name != "" then form.name else h.name)
    ensures h'.location == (if form.location != "" then form.location else h.location)
    ensures HostelTypeLabel(h'.htype) == (if form.htype != "" then form.htype else HostelTypeLabel(h.htype))
    ensures PriceGiven(form) ==> ToNumber(form.price.value) == Value(h'.price)
    ensures !PriceGiven(form) ==> h'.price == h.price
    ensures h'.facilities == (if form.facilities.Some? then form.facilities.value.value else h.facilities)
    ensures h'.rooms == (if form.rooms.Some? then StoreRooms(form.rooms.value.value) else h.rooms)
    ensures h'.images == h.images + files
    ensures h'.owner == h.owner && h'.rating == h.rating
    ensures SeatsConsistent(h')
  {
    var rooms := if form.rooms.Some? then StoreRooms(form.rooms.value.value) else h.rooms;
    h.(name := if form.name != "" then form.name else h.name,
       location := if form.location != "" then form.location else h.location,
       htype := if form.htype != "" then ParseHostelType(form.htype).value else h.htype,
       price := if PriceGiven(form) then ToNumber(form.price.value).v else h.price,
       facilities := if form.facilities.Some? then form.facilities.value.value else h.facilities,
       rooms := rooms,
       images := h.images + files,
       availableSeats := FreeSeats(rooms))
  }

  method UpdateHostel(db: Database, requester: UserId, id: HostelId, form: HostelForm, files: seq<string>)
    returns (r: Result<Hostel, HostelError>)
    requires db.Valid()
    modifies db
    ensures db.Valid()
    ensures db.bookings == old(db.bookings) && db.reviews == old(db.reviews) && db.users == old(db.users)
    ensures db.nextHostelId == old(db.nextHostelId) && db.nextUserId == old(db.nextUserId)
    ensures r == Err(AccessDenied) <==> !MayChange(old(db.hostels), id, requester)
    ensures r == Err(ServerError) <==> MayChange(old(db.hostels), id, requester) && !UpdateValid(form)
    ensures r.Err? ==> db.hostels == old(db.hostels)
    ensures r.Ok? ==> UpdateValid(form) && r.value == Updated(old(db.hostels)[id], form, files)
    ensures r.Ok? ==> db.hostels == old(db.hostels)[id := r.value]
  {
    if id !in db.hostels || db.hostels[id].owner != requester {
      return Err(AccessDenied);
    }
    if !UpdateValid(form) {
      return Err(ServerError);
    }
    var h := Updated(db.hostels[id], form, files);
    db.hostels := db.hostels[id := h];
    r := Ok(h);
  }

  method DeleteHostel(db: Database, requester: UserId, id: HostelId) returns (r: Result<(), HostelError>)
    requires db.Valid()
    modifies db
    ensures db.Valid()
    ensures db.bookings == old(db.bookings) && db.reviews == old(db.reviews) && db.users == old(db.users)
    ensures db.nextHostelId == old(db.nextHostelId) && db.nextUserId == old(db.nextUserId)
    ensures r.Ok? <==> MayChange(old(db.hostels), id, requester)
    ensures r.Err? ==> r.error == AccessDenied && db.hostels == old(db.hostels)
    ensures r.Ok? ==> db.hostels == old(db.hostels) - {id}
    ensures AllSeatsConsistent(old(db.hostels)) ==> AllSeatsConsistent(db.hostels)
  {
    if id !in db.hostels || db.hostels[id].owner != requester {
      return Err(AccessDenied);
    }
    db.hostels := db.hostels - {id};
    r := Ok(());
  }
}
