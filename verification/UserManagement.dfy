/** The user administration screen (src/pages/UserManagement.tsx): an in-memory
    list of users with search and select filters, a create/edit form and a
    confirmed delete. */
module UserManagement {
  import opened Wrappers
  import opened Seqs
  import opened Text
  import opened Types

  datatype UserStatus = Active | Inactive

  /** `User`. */
  datatype User = User(
    id: int,
    name: string,
    email: string,
    phone: string,
    role: Role,
    status: UserStatus,
    lastLogin: string,
    createdDate: string,
    assignedClients: int)

  function IdOfUser(u: User): int { u.id }

  /** The form's fields as typed. */
  datatype UserInput = UserInput(name: string, email: string, role: string)

  /** The form's fields after `userSchema` accepted them. */
  datatype UserForm = UserForm(name: string, email: string, role: Role)

  /** `userSchema`: a non-empty name, a non-empty email that passes the email check
      `isEmail`, and one of the four roles. */
  function ValidateUser(input: UserInput, isEmail: string -> bool): (r: Option<UserForm>)
    ensures r.Some? <==> input.name != "" && input.email != "" && isEmail(input.email) && ParseRole(input.role).Some?
    ensures r.Some? ==> r.value.name == input.name && r.value.email == input.email && RoleName(r.value.role) == input.role
  {
    if input.name == "" || input.email == "" || !isEmail(input.email) then None
    else match ParseRole(input.role)
      case None => None
      case Some(role) => Some(UserForm(input.name, input.email, role))
  }

  /** One row of `filteredUsers`: the search hits name or email, and both selects admit the user. */
  predicate UserShown(u: User, search: string, role: Choice<Role>, status: Choice<UserStatus>)
  {
    && (MatchesSearch(u.name, search) || MatchesSearch(u.email, search))
    && Admits(role, u.role)
    && Admits(status, u.status)
  }

  function Shown(search: string, role: Choice<Role>, status: Choice<UserStatus>): User -> bool
  {
    (u: User) => UserShown(u, search, role, status)
  }

  lemma NoFilterShowsAll(users: seq<User>)
    ensures Filter(users, Shown("", All, All)) == users
  {
    forall i | 0 <= i < |users| ensures Shown("", All, All)(users[i]) {
      EmptySearchMatches(users[i].name);
    }
    FilterKeepsAll(users, Shown("", All, All));
  }

  /** `filteredUsers`: exactly the users shown, in list order; with no search and both
      selects on `all` it is the whole list. */
  function FilteredUsers(users: seq<User>, search: string, role: Choice<Role>, status: Choice<UserStatus>): (r: seq<User>)
    ensures forall i :: 0 <= i < |r| ==> r[i] in users && UserShown(r[i], search, role, status)
    ensures forall i :: 0 <= i < |users| && UserShown(users[i], search, role, status) ==> users[i] in r
    ensures IsSubsequence(r, users)
    ensures search == "" && role == All && status == All ==> r == users
  {
    FilterIsSubsequence(users, Shown(search, role, status));
    NoFilterShowsAll(users);
    Filter(users, Shown(search, role, status))
  }

  /** The new user's id as written: `users.length + 1`. */
  function LengthPlusOne(users: seq<User>): int
  {
    |users| + 1
  }

  /** The new user's id as intended: one more than the largest id, so larger than every id. */
  function NextUserId(users: seq<User>): (r: int)
    ensures forall i :: 0 <= i < |users| ==> users[i].id < r
    ensures users == [] ==> r == 1
    ensures users != [] ==> exists i :: 0 <= i < |users| && r == users[i].id + 1
  {
    var ids := Map(users, IdOfUser);
    assert forall i :: 0 <= i < |ids| ==> ids[i] == users[i].id;
    MaxPlusOne(ids)
  }

  /** `{ id, ...data, phone, status: 'active', lastLogin: today, createdDate: today, assignedClients: 0 }`;
      the generated phone number and today's date are parameters. */
  function CreatedUser(id: int, form: UserForm, phone: string, today: string): User
  {
    User(id, form.name, form.email, phone, form.role, Active, today, today, 0)
  }

  /** The submitted `data` of an edit: `reset(user)` loaded the whole edited record into the
      form, which registers only name, email and role, so `data` is that record with those
      three fields typed over it. */
  function Overwritten(edited: User, form: UserForm): User
  {
    edited.(name := form.name, email := form.email, role := form.role)
  }

  /** `users.map(u => u.id === editingUser.id ? { ...u, ...data } : u)`: every field of
      `data` wins, so each user with the edited id becomes the edited record with the
      form's name, email and role; the other users are untouched. */
  function EditedUsers(users: seq<User>, edited: User, form: UserForm): (r: seq<User>)
    ensures |r| == |users|
    ensures forall i :: 0 <= i < |users| && users[i].id != edited.id ==> r[i] == users[i]
    ensures forall i :: 0 <= i < |users| && users[i].id == edited.id ==> r[i] == Overwritten(edited, form)
    ensures forall i :: 0 <= i < |users| ==> r[i].id == users[i].id
  {
    MapWhere(users, (u: User) => u.id == edited.id, (u: User) => Overwritten(edited, form))
  }

  /** With unique ids, editing a listed user changes that user alone, and only in name,
      email and role. */
  lemma EditListedUser(users: seq<User>, j: nat, form: UserForm)
    requires DistinctBy(users, IdOfUser) && j < |users|
    ensures EditedUsers(users, users[j], form) ==
      users[j := users[j].(name := form.name, email := form.email, role := form.role)]
  {
    var r := EditedUsers(users, users[j], form);
    var expected := users[j := users[j].(name := form.name, email := form.email, role := form.role)];
    forall i | 0 <= i < |users| ensures r[i] == expected[i] {
      if i != j {
        assert IdOfUser(users[i]) != IdOfUser(users[j]);
      }
    }
  }

  /** Once `length + 1` has repeated an id, editing the older user with that id copies its
      whole record over the newer one: phone, status and dates of the newer user are lost. */
  lemma EditCopiesOverRepeatedId(form: UserForm, edit: UserForm, phone: string, today: string)
    requires phone != "" || today != ""
    ensures var first := User(1, "A", "a@x", "", Staff, Active, "", "", 0);
      var second := User(2, "B", "b@x", "", Staff, Active, "", "", 0);
      var remaining := RemoveKey([first, second], IdOfUser, 1);
      var created := CreatedUser(LengthPlusOne(remaining), form, phone, today);
      var edited := EditedUsers([created] + remaining, second, edit);
      && remaining == [second]
      && edited[0] == edited[1] == Overwritten(second, edit)
      && edited[0] != Overwritten(created, edit)
  {
    var first := User(1, "A", "a@x", "", Staff, Active, "", "", 0);
    var second := User(2, "B", "b@x", "", Staff, Active, "", "", 0);
    LengthPlusOneCollides(form, phone, today);
    var remaining := RemoveKey([first, second], IdOfUser, 1);
    var created := CreatedUser(LengthPlusOne(remaining), form, phone, today);
    var after := [created] + remaining;
    assert after[0] == created && after[1] == second;
    assert Overwritten(second, edit).phone != created.phone || Overwritten(second, edit).lastLogin != created.lastLogin;
  }

  /** With `length + 1`, deleting the first of two users and adding one reuses the
      id of the remaining user. */
  lemma LengthPlusOneCollides(form: UserForm, phone: string, today: string)
    ensures var first := User(1, "A", "a@x", "", Staff, Active, "", "", 0);
      var second := User(2, "B", "b@x", "", Staff, Active, "", "", 0);
      var remaining := RemoveKey([first, second], IdOfUser, 1);
      var added := CreatedUser(LengthPlusOne(remaining), form, phone, today);
      && remaining == [second]
      && added.id == second.id
      && !DistinctBy([added] + remaining, IdOfUser)
  {
    var first := User(1, "A", "a@x", "", Staff, Active, "", "", 0);
    var second := User(2, "B", "b@x", "", Staff, Active, "", "", 0);
    assert IdOfUser([first, second][0]) == 1;
    RemoveKeyCount([first, second], IdOfUser, 1);
    var remaining := RemoveKey([first, second], IdOfUser, 1);
    assert [first, second][1] == second;
    assert |remaining| == 1 && second in remaining;
    assert remaining == [second];
    var added := CreatedUser(LengthPlusOne(remaining), form, phone, today);
    var after := [added] + remaining;
    assert after[1] == second && IdOfUser(after[0]) == IdOfUser(after[1]);
  }

  /** With unique ids, the as-written id is fresh exactly when no user already has id
      `length + 1`; while the ids are `1..n` (no deletion yet) it always is. */
  lemma LengthPlusOneFresh(users: seq<User>, form: UserForm, phone: string, today: string)
    requires DistinctBy(users, IdOfUser)
    ensures DistinctBy([CreatedUser(LengthPlusOne(users), form, phone, today)] + users, IdOfUser) <==>
      forall i :: 0 <= i < |users| ==> users[i].id != |users| + 1
    ensures (forall i :: 0 <= i < |users| ==> users[i].id == i + 1) ==>
      DistinctBy([CreatedUser(LengthPlusOne(users), form, phone, today)] + users, IdOfUser)
  {
    PrependDistinctBy(CreatedUser(LengthPlusOne(users), form, phone, today), users, IdOfUser);
  }

  /** From users numbered `1..n`, deleting user `k` and then creating one repeats an id
      exactly when `k` was not the last id `n`. */
  lemma DeleteThenCreate(users: seq<User>, k: int, form: UserForm, phone: string, today: string)
    requires forall i :: 0 <= i < |users| ==> users[i].id == i + 1
    requires 1 <= k <= |users|
    ensures var remaining := RemoveKey(users, IdOfUser, k);
      DistinctBy([CreatedUser(LengthPlusOne(remaining), form, phone, today)] + remaining, IdOfUser) <==> k == |users|
  {
    var n := |users|;
    assert DistinctBy(users, IdOfUser);
    assert IdOfUser(users[k - 1]) == k;
    RemoveKeyCount(users, IdOfUser, k);
    RemoveKeyKeepsDistinct(users, IdOfUser, k);
    var remaining := RemoveKey(users, IdOfUser, k);
    assert LengthPlusOne(remaining) == n;
    LengthPlusOneFresh(remaining, form, phone, today);
    if k < n {
      assert IdOfUser(users[n - 1]) != k;
      assert users[n - 1] in remaining;
      var j :| 0 <= j < |remaining| && remaining[j] == users[n - 1];
      assert remaining[j].id == |remaining| + 1;
    }
  }

  /** With the intended id, creating keeps ids unique. */
  lemma CreateKeepsIdsUnique(users: seq<User>, form: UserForm, phone: string, today: string)
    requires DistinctBy(users, IdOfUser)
    ensures DistinctBy([CreatedUser(NextUserId(users), form, phone, today)] + users, IdOfUser)
  {
    var r := [CreatedUser(NextUserId(users), form, phone, today)] + users;
    forall i, j | 0 <= i < j < |r| ensures IdOfUser(r[i]) != IdOfUser(r[j]) {
      assert r[j] == users[j - 1];
      if i > 0 {
        assert r[i] == users[i - 1];
      }
    }
  }

  /** `getRoleColor(role)`. */
  function RoleColor(role: string): (r: string)
    ensures ParseRole(role).None? ==> r == "bg-gray-100 text-gray-800"
  {
    match ParseRole(role)
    case Some(Admin) => "bg-purple-100 text-purple-800"
    case Some(Manager) => "bg-blue-100 text-blue-800"
    case Some(Staff) => "bg-green-100 text-green-800"
    case Some(Client) => "bg-orange-100 text-orange-800"
    case None => "bg-gray-100 text-gray-800"
  }

  /** Each role has its own colour, and none of them is the fallback gray. */
  lemma RoleColorsDistinct(a: Role, b: Role)
    ensures a != b ==> RoleColor(RoleName(a)) != RoleColor(RoleName(b))
    ensures RoleColor(RoleName(a)) != "bg-gray-100 text-gray-800"
  {
    ParseRoleName(a);
    ParseRoleName(b);
  }

  class UserManagementPage {
    var users: seq<User>
    var searchTerm: string
    var roleFilter: Choice<Role>
    var statusFilter: Choice<UserStatus>
    var isModalOpen: bool
    var editingUser: Option<User>
    var deletingUserId: Option<int>

    /** Every user id is positive: the seeded ids are `1..n` and `length + 1` is at least 1,
        so no user carries the id `0` that the delete guard treats as none. Ids need not be
        unique (see `DeleteThenCreate`). */
    predicate Valid()
      reads this
    {
      forall i :: 0 <= i < |users| ==> users[i].id >= 1
    }

    /** Mounting with the generated users, numbered `1..n`. */
    constructor (seed: seq<User>)
      requires forall i :: 0 <= i < |seed| ==> seed[i].id == i + 1
      ensures Valid()
      ensures users == seed && searchTerm == "" && roleFilter == All && statusFilter == All
      ensures !isModalOpen && editingUser.None? && deletingUserId.None?
    {
      users := seed;
      searchTerm := "";
      roleFilter := All;
      statusFilter := All;
      isModalOpen := false;
      editingUser := None;
      deletingUserId := None;
    }

    /** The list the table shows. */
    function Visible(): (r: seq<User>)
      reads this
      ensures IsSubsequence(r, users)
      ensures forall i :: 0 <= i < |r| ==> UserShown(r[i], searchTerm, roleFilter, statusFilter)
      ensures forall i :: 0 <= i < |users| && UserShown(users[i], searchTerm, roleFilter, statusFilter) ==> users[i] in r
    {
      FilteredUsers(users, searchTerm, roleFilter, statusFilter)
    }

    /** `handleOpenModal(user)`. */
    method OpenModal(user: Option<User>)
      requires Valid()
      modifies this
      ensures Valid()
      ensures searchTerm == old(searchTerm) && roleFilter == old(roleFilter) && statusFilter == old(statusFilter)
      ensures isModalOpen && editingUser == user
      ensures users == old(users) && deletingUserId == old(deletingUserId)
    {
      editingUser := user;
      isModalOpen := true;
    }

    /** `handleCloseModal`. */
    method CloseModal()
      requires Valid()
      modifies this
      ensures Valid()
      ensures searchTerm == old(searchTerm) && roleFilter == old(roleFilter) && statusFilter == old(statusFilter)
      ensures !isModalOpen && editingUser.None?
      ensures users == old(users) && deletingUserId == old(deletingUserId)
    {
      isModalOpen := false;
      editingUser := None;
    }

    /** `handleSubmit(onSubmit)`: input rejected by the schema changes nothing; otherwise the
        users with the edited id become the edited record with the form's fields, or a new
        active user with id `users.length + 1` goes first, and the modal closes. `phone` and `today`
        stand for the generated phone number and the date. */
    method Submit(input: UserInput, isEmail: string -> bool, phone: string, today: string)
      requires Valid()
      modifies this
      ensures Valid()
      ensures searchTerm == old(searchTerm) && roleFilter == old(roleFilter) && statusFilter == old(statusFilter)
      ensures deletingUserId == old(deletingUserId)
      ensures ValidateUser(input, isEmail).None? ==>
        users == old(users) && isModalOpen == old(isModalOpen) && editingUser == old(editingUser)
      ensures ValidateUser(input, isEmail).Some? ==> !isModalOpen && editingUser.None?
      ensures ValidateUser(input, isEmail).Some? && old(editingUser).Some? ==>
        users == EditedUsers(old(users), old(editingUser).value, ValidateUser(input, isEmail).value)
      ensures ValidateUser(input, isEmail).Some? && old(editingUser).None? ==>
        users == [CreatedUser(LengthPlusOne(old(users)), ValidateUser(input, isEmail).value, phone, today)] + old(users)
    {
      var checked := ValidateUser(input, isEmail);
      if checked.None? {
        return;
      }
      var form := checked.value;
      if editingUser.Some? {
        users := EditedUsers(users, editingUser.value, form);
      } else {
        users := [CreatedUser(|users| + 1, form, phone, today)] + users;
      }
      CloseModal();
    }

    /** The row's delete button, and the dialog's dismissal (`None`). */
    method SetDeleting(id: Option<int>)
      requires Valid()
      modifies this
      ensures Valid()
      ensures searchTerm == old(searchTerm) && roleFilter == old(roleFilter) && statusFilter == old(statusFilter)
      ensures deletingUserId == id
      ensures users == old(users) && isModalOpen == old(isModalOpen) && editingUser == old(editingUser)
    {
      deletingUserId := id;
    }

    /** `handleDeleteUser`: with a pending id (`0` counts as none) every user with it goes
        and the pending id is cleared; otherwise nothing happens. */
    method DeleteUser()
      requires Valid()
      modifies this
      ensures Valid()
      ensures searchTerm == old(searchTerm) && roleFilter == old(roleFilter) && statusFilter == old(statusFilter)
      ensures isModalOpen == old(isModalOpen) && editingUser == old(editingUser)
      ensures old(deletingUserId).None? || old(deletingUserId) == Some(0) ==>
        users == old(users) && deletingUserId == old(deletingUserId)
      ensures old(deletingUserId).Some? && old(deletingUserId) != Some(0) ==>
        users == RemoveKey(old(users), IdOfUser, old(deletingUserId).value) && deletingUserId.None?
    {
      if deletingUserId.Some? && deletingUserId.value != 0 {
        users := RemoveKey(users, IdOfUser, deletingUserId.value);
        deletingUserId := None;
      }
    }
  }
}
