/**
 * The signed-in user's own profile: reading it without the password, and the
 * partial update that may change only the name and the phone number.
 */
module ProfileController {
  import opened Wrappers
  import opened HostelSchema
  import opened UserSchema
  import opened Store

  /** `User.findById(req.user._id)`: the requester's document without its
      password, or null once the user is gone. */
  function GetProfile(users: map<UserId, User>, requester: UserId): (r: Option<UserView>)
    ensures r.Some? <==> requester in users
    ensures r.Some? ==> r.value == View(users[requester])
  {
    if requester in users then Some(View(users[requester])) else None
  }

  /** The fields an update request may carry; an empty string is one not sent. */
  datatype ProfileForm = ProfileForm(name: string, phone: string)

  /** ServerError is the 500 reply: a user deleted after signing in has no document to update. */
  datatype ProfileError = ServerError

  method UpdateProfile(db: Database, requester: UserId, form: ProfileForm) returns (r: Result<UserView, ProfileError>)
    requires db.Valid()
    modifies db
    ensures db.Valid()
    ensures db.hostels == old(db.hostels) && db.bookings == old(db.bookings) && db.reviews == old(db.reviews)
    ensures db.nextHostelId == old(db.nextHostelId) && db.nextUserId == old(db.nextUserId)
    ensures r.Err? <==> requester !in old(db.users)
    ensures r.Err? ==> db.users == old(db.users)
    ensures r.Ok? ==> requester in db.users
    ensures r.Ok? && requester in db.users ==>
      var u := old(db.users)[requester];
      var u' := db.users[requester];
      && db.users == old(db.users)[requester := u']
      && u'.name == (if form.name != "" then form.name else u.name)
      && u'.phone == (if form.phone != "" then form.phone else u.phone)
      && u'.email == u.email && u'.password == u.password && u'.role == u.role
      && u'.joinedDate == u.joinedDate && u'.savedHostels == u.savedHostels
      && r.value == View(u')
  {
    if requester !in db.users {
      return Err(ServerError);
    }
    var u := db.users[requester];
    if form.name != "" {
      u := u.(name := form.name);
    }
    if form.phone != "" {
      u := u.(phone := form.phone);
    }
    // the password was not modified, so the save hook leaves it as it is
    u := PreSave(u, false, s => s);
    UpdateKeepsEmails(db.users, requester, u);
    db.users := db.users[requester := u];
    r := Ok(View(u));
  }

  /** A profile update never changes any user's email, so emails stay unique
      and every other user's document is untouched. */
  lemma {:induction false} UpdateKeepsEmails(users: map<UserId, User>, id: UserId, u': User)
    requires EmailsUnique(users) && id in users && u'.email == users[id].email
    ensures EmailsUnique(users[id := u'])
  {
    var m := users[id := u'];
    forall a, b | a in m && b in m && a != b
      ensures m[a].email != m[b].email
    {
      assert m[a].email == users[a].email;
      assert m[b].email == users[b].email;
    }
  }
}
