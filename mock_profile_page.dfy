/**
 * The earlier, self-contained profile page that works on built-in sample
 * data: its four-rule form validation, the two save handlers, and the
 * pending-bookings figure.
 */
module MockProfilePage {
  import opened Wrappers
  import opened Seqs
  import opened Text
  import opened Validation
  import ProfilePage

  /** The edited fields; the student record has no hostel name, which reads as "". */
  datatype ProfileData = ProfileData(name: string, email: string, phone: string, hostelName: string)

  /** validateForm(data, isOwner): the first rule that fails, in the order
      name, email, phone and (for an owner only) hostel name; None when all pass. */
  function ValidateForm(data: ProfileData, isOwner: bool): (r: Option<string>)
    ensures r.None? <==>
      && LongEnough(data.name, 2) && ValidEmail(data.email) && ValidPhone(data.phone)
      && (isOwner ==> LongEnough(data.hostelName, 3))
    ensures r == Some(NameMessage) <==> !LongEnough(data.name, 2)
    ensures r == Some(EmailMessage) <==> LongEnough(data.name, 2) && !ValidEmail(data.email)
    ensures r == Some(PhoneMessage) <==>
      LongEnough(data.name, 2) && ValidEmail(data.email) && !ValidPhone(data.phone)
    ensures r == Some(HostelNameMessage) <==>
      && LongEnough(data.name, 2) && ValidEmail(data.email) && ValidPhone(data.phone)
      && isOwner && !LongEnough(data.hostelName, 3)
  {
    if !LongEnough(data.name, 2) then Some(NameMessage)
    else if !ValidEmail(data.email) then Some(EmailMessage)
    else if !ValidPhone(data.phone) then Some(PhoneMessage)
    else if isOwner && !LongEnough(data.hostelName, 3) then Some(HostelNameMessage)
    else None
  }

  /** A student's hostel name is never looked at. */
  lemma StudentIgnoresHostelName(data: ProfileData, hostelName: string)
    ensures ValidateForm(data, false) == ValidateForm(data.(hostelName := hostelName), false)
  {
  }

  /** Whatever passes as an owner passes as a student. */
  lemma OwnerRulesStricter(data: ProfileData)
    requires ValidateForm(data, true).None?
    ensures ValidateForm(data, false).None?
  {
  }

  /** Whatever this page accepts, the client page's two-rule validation
      accepts as well. */
  lemma StricterThanClientPage(data: ProfileData, isOwner: bool)
    requires ValidateForm(data, isOwner).None?
    ensures ProfilePage.ValidateForm(data.name, data.phone).None?
  {
  }

  const SeedPhone: string := "+91 9876543210"

  /** The sample student's data passes validation as it is. */
  lemma SeedStudentValid()
    ensures ValidateForm(ProfileData("Rahul Sharma", "rahul@student.com", SeedPhone, ""), false).None?
  {
    SeedNameValid();
    SeedEmailValid();
    SeedPhoneValid();
  }

  lemma SeedNameValid()
    ensures LongEnough("Rahul Sharma", 2)
  {
    TrimNoOp("Rahul Sharma");
  }

  lemma SeedEmailValid()
    ensures ValidEmail("rahul@student.com")
  {
    assert EmailAt("rahul@student.com", 5, 13);
  }

  lemma SeedPhoneValid()
    ensures ValidPhone(SeedPhone)
  {
    var digits := "9876543210";
    assert SeedPhone == "+91" + (" " + digits);
    OneSpacePhoneAccepted(digits);
  }

  datatype MockBooking = MockBooking(status: string)

  /** The pending-bookings figure: the bookings not 'Completed' when there are
      any, and the placeholder 3 otherwise. */
  function PendingBookings(bookings: seq<MockBooking>): (r: nat)
    ensures bookings == [] ==> r == 3
    ensures bookings != [] ==> r == |bookings| - Count(bookings, Completed)
  {
    if |bookings| > 0 then
      CountComplement(bookings, Completed, NotCompleted);
      Count(bookings, NotCompleted)
    else 3
  }

  predicate Completed(b: MockBooking) { b.status == "Completed" }
  predicate NotCompleted(b: MockBooking) { !Completed(b) }

  /** A new booking that is not Completed raises a non-empty list's pending figure by one; a Completed one leaves it. */
  lemma PendingAfterBooking(bookings: seq<MockBooking>, b: MockBooking)
    requires bookings != []
    ensures PendingBookings(bookings + [b]) == PendingBookings(bookings) + (if Completed(b) then 0 else 1)
  {
    CountSnoc(bookings, b, Completed);
  }

  /** Once every booking is completed, nothing is pending. */
  lemma AllCompletedNonePending(bookings: seq<MockBooking>)
    requires bookings != [] && forall i :: 0 <= i < |bookings| ==> Completed(bookings[i])
    ensures PendingBookings(bookings) == 0
  {
    FilterNone(bookings, NotCompleted);
  }

  /** The page state the save handlers touch. */
  class MockProfile {
    var studentData: ProfileData
    var ownerData: ProfileData
    var editMode: bool
    var error: string
    var pendingBookings: nat

    /** The state is initialised before the bookings effect has run, so the
        owner's pending figure is computed from the empty list. */
    constructor()
      ensures studentData == ProfileData("Rahul Sharma", "rahul@student.com", SeedPhone, "")
      ensures ownerData == ProfileData("Ramesh Kumar", "ramesh@sunrisehostel.com", SeedPhone, "Sunrise Boys Hostel")
      ensures !editMode && error == ""
      ensures pendingBookings == 3
    {
      studentData := ProfileData("Rahul Sharma", "rahul@student.com", SeedPhone, "");
      ownerData := ProfileData("Ramesh Kumar", "ramesh@sunrisehostel.com", SeedPhone, "Sunrise Boys Hostel");
      editMode := false;
      error := "";
      pendingBookings := PendingBookings([]);
    }

    /** handleSaveStudent: on failure the message is shown and edit mode
        stays as it was; on success the error is cleared and edit mode ends. */
    method HandleSaveStudent() returns (saved: bool)
      modifies this
      ensures saved <==> ValidateForm(studentData, false).None?
      ensures !saved ==> error == ValidateForm(studentData, false).value && editMode == old(editMode)
      ensures saved ==> error == "" && !editMode
      ensures studentData == old(studentData) && ownerData == old(ownerData)
      ensures pendingBookings == old(pendingBookings)
    {
      var err := ValidateForm(studentData, false);
      if err.Some? {
        error := err.value;
        return false;
      }
      error := "";
      editMode := false;
      saved := true;
    }

    /** handleSaveOwner: the same guard with the hostel-name rule switched on. */
    method HandleSaveOwner() returns (saved: bool)
      modifies this
      ensures saved <==> ValidateForm(ownerData, true).None?
      ensures !saved ==> error == ValidateForm(ownerData, true).value && editMode == old(editMode)
      ensures saved ==> error == "" && !editMode
      ensures studentData == old(studentData) && ownerData == old(ownerData)
      ensures pendingBookings == old(pendingBookings)
    {
      var err := ValidateForm(ownerData, true);
      if err.Some? {
        error := err.value;
        return false;
      }
      error := "";
      editMode := false;
      saved := true;
    }
  }
}
