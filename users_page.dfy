/** The user-management page: the search over accounts, the role label, and
    the page state the form handlers and the add, edit and delete submits
    update. Requests are not sent: their outcomes are inputs. */
module UsersPage {
  import opened Wrappers
  import opened Strings
  import opened Lists

  /** An account as the server lists it; `name` may be missing. */
  datatype UserData = UserData(id: int, email: string, name: Option<string>, role: string)

  const AdminRole: string := "ADMIN"
  const CashierRole: string := "KASIR"

  /** The search test: the search occurs in the name, when there is one, or
      in the email, ignoring letter case. */
  predicate UserMatches(search: string, u: UserData)
    ensures search == "" ==> UserMatches(search, u)
    ensures Includes(u.email, search) ==> UserMatches(search, u)
  {
    MentionsEmpty(u.email);
    ContainedIsMentioned(u.email, search);
    (u.name.Some? && Mentions(u.name.value, search)) || Mentions(u.email, search)
  }

  /** `filteredUsers`. */
  function FilteredUsers(users: seq<UserData>, search: string): (r: seq<UserData>)
    ensures |r| <= |users|
  {
    Filter(users, u => UserMatches(search, u))
  }

  /** An account is listed exactly when it is loaded and matches the search. */
  lemma FilteredUsersMembership(users: seq<UserData>, search: string, u: UserData)
    ensures u in FilteredUsers(users, search) <==> u in users && UserMatches(search, u)
  {
    FilterMembership(users, u => UserMatches(search, u), u);
  }

  /** An account without a name is found by its email alone. */
  lemma NamelessUserFoundByEmailOnly(users: seq<UserData>, search: string, u: UserData)
    requires u in users && u.name.None?
    ensures u in FilteredUsers(users, search) <==> Mentions(u.email, search)
  {
    FilteredUsersMembership(users, search, u);
  }

  /** The listed accounts keep the order in which they were loaded. */
  lemma FilteredUsersKeepOrder(a: seq<UserData>, b: seq<UserData>, search: string)
    ensures FilteredUsers(a + b, search) == FilteredUsers(a, search) + FilteredUsers(b, search)
  {
    FilterAppend(a, b, u => UserMatches(search, u));
  }

  /** An empty search lists every account, named or not (every email
      contains the empty string). */
  lemma EmptySearchListsAllUsers(users: seq<UserData>)
    ensures FilteredUsers(users, "") == users
  {
    forall i | 0 <= i < |users| ensures UserMatches("", users[i]) {
      MentionsEmpty(users[i].email);
    }
    FilterKeepsAll(users, u => UserMatches("", u));
  }

  /** The search ignores letter case. */
  lemma UserSearchIgnoresCase(users: seq<UserData>, search: string)
    ensures FilteredUsers(users, ToLower(search)) == FilteredUsers(users, search)
  {
    forall u ensures UserMatches(ToLower(search), u) == UserMatches(search, u) {
      MentionsIgnoresCase(u.email, search);
      if u.name.Some? { MentionsIgnoresCase(u.name.value, search); }
    }
    FilterSameKeep(users, u => UserMatches(ToLower(search), u), u => UserMatches(search, u));
  }

  /** The role column: "Administrator" for ADMIN, "Cashier" for anything else. */
  function RoleLabel(role: string): (r: string)
    ensures r == "Administrator" || r == "Cashier"
  {
    if role == AdminRole then "Administrator" else "Cashier"
  }

  /** Only ADMIN accounts are labelled administrators; every other role,
      KASIR among them, reads as a cashier. */
  lemma RoleLabelExact(role: string)
    ensures RoleLabel(role) == "Administrator" <==> role == AdminRole
    ensures RoleLabel(CashierRole) == "Cashier"
  {
  }

  /** The form's four fields. */
  datatype UserForm = UserForm(email: string, password: string, name: string, role: string)

  datatype FormField = EmailField | PasswordField | NameField | RoleField

  /** The form at mount and after `resetForm`: empty, with the cashier role. */
  const EmptyForm: UserForm := UserForm("", "", "", CashierRole)

  function GetField(f: UserForm, k: FormField): string {
    match k
    case EmailField => f.email
    case PasswordField => f.password
    case NameField => f.name
    case RoleField => f.role
  }

  /** `{ ...prev, [name]: value }`: the named field takes the value, the other
      three keep theirs. */
  function SetField(f: UserForm, k: FormField, v: string): (r: UserForm)
    ensures GetField(r, k) == v
    ensures forall j :: j != k ==> GetField(r, j) == GetField(f, j)
  {
    match k
    case EmailField => f.(email := v)
    case PasswordField => f.(password := v)
    case NameField => f.(name := v)
    case RoleField => f.(role := v)
  }

  /** The form `handleEditClick` fills in. */
  function EditForm(u: UserData): (r: UserForm)
    ensures r.password == ""
  {
    UserForm(u.email, "", u.name.GetOr(""), u.role)
  }

  /** Editing starts from the account's own email, role and name (a missing
      name as ""), and never from a password. */
  lemma EditFormFromAccount(u: UserData)
    ensures EditForm(u).email == u.email && EditForm(u).role == u.role
    ensures u.name.Some? ==> EditForm(u).name == u.name.value
    ensures u.name.None? ==> EditForm(u).name == ""
    ensures EditForm(u).password == ""
  {
  }

  /** The body of `POST /users`. */
  datatype NewUser = NewUser(email: string, password: string, name: string, role: string)

  const AddFailedAlert: string := "Failed to add user"
  const EditFailedAlert: string := "Failed to update user"
  const DeleteFailedAlert: string := "Failed to delete user"

  /** A snapshot of every state variable of the page. */
  datatype PageView = PageView(
    users: seq<UserData>,
    loading: bool,
    search: string,
    isAddOpen: bool,
    isEditOpen: bool,
    isDeleteOpen: bool,
    currentUser: Option<UserData>,
    formData: UserForm,
    formLoading: bool)

  class UsersPageState {
    var users: seq<UserData>
    var loading: bool
    var search: string
    var isAddOpen: bool
    var isEditOpen: bool
    var isDeleteOpen: bool
    var currentUser: Option<UserData>
    var formData: UserForm
    var formLoading: bool

    function View(): PageView
      reads this
    {
      PageView(users, loading, search, isAddOpen, isEditOpen, isDeleteOpen, currentUser, formData, formLoading)
    }

    /** The page mounts empty, loading, with the empty cashier form. */
    constructor ()
      ensures View() == PageView([], true, "", false, false, false, None, EmptyForm, false)
    {
      users := [];
      loading := true;
      search := "";
      isAddOpen := false;
      isEditOpen := false;
      isDeleteOpen := false;
      currentUser := None;
      formData := EmptyForm;
      formLoading := false;
    }

    /** `fetchData`, given the reply of `GET /users` (None: the request failed). */
    method FetchData(reply: Option<seq<UserData>>)
      modifies this
      ensures reply.Some? ==> View() == old(View()).(users := reply.value, loading := false)
      ensures reply.None? ==> View() == old(View()).(loading := false)
    {
      loading := true;
      if reply.Some? {
        users := reply.value;
      }
      loading := false;
    }

    /** `handleInputChange`: one field changes, the other three do not. */
    method HandleInputChange(k: FormField, v: string)
      modifies this
      ensures GetField(formData, k) == v
      ensures forall j :: j != k ==> GetField(formData, j) == GetField(old(formData), j)
      ensures View() == old(View()).(formData := formData)
    {
      formData := SetField(formData, k, v);
    }

    /** `resetForm`. */
    method ResetForm()
      modifies this
      ensures View() == old(View()).(formData := EmptyForm)
    {
      formData := EmptyForm;
    }

    /** The "Add User" button: a reset form in the add dialog. */
    method OpenAdd()
      modifies this
      ensures View() == old(View()).(formData := EmptyForm, isAddOpen := true)
    {
      ResetForm();
      isAddOpen := true;
    }

    /** `handleAddSubmit`: posts all four fields; on success the dialog closes
        and the form is reset, on failure the alert is raised. */
    method HandleAddSubmit(created: bool) returns (sent: NewUser, alert: Option<string>)
      modifies this
      ensures sent == NewUser(old(formData).email, old(formData).password, old(formData).name, old(formData).role)
      ensures created ==> alert.None?
      ensures created ==> View() == old(View()).(isAddOpen := false, formData := EmptyForm, formLoading := false)
      ensures !created ==> alert == Some(AddFailedAlert) && View() == old(View()).(formLoading := false)
    {
      formLoading := true;
      sent := NewUser(formData.email, formData.password, formData.name, formData.role);
      if created {
        isAddOpen := false;
        ResetForm();
        alert := None;
      } else {
        alert := Some(AddFailedAlert);
      }
      formLoading := false;
    }

    /** `handleEditClick(user)`. */
    method HandleEditClick(u: UserData)
      modifies this
      ensures View() == old(View()).(currentUser := Some(u), formData := EditForm(u), isEditOpen := true)
    {
      currentUser := Some(u);
      formData := EditForm(u);
      isEditOpen := true;
    }

    /** `handleEditSubmit`: without a current user nothing happens; otherwise
        only the name is patched (email, password and role are not sent). */
    method HandleEditSubmit(saved: bool) returns (sent: Option<(int, string)>, alert: Option<string>)
      modifies this
      ensures old(currentUser).None? ==> sent.None? && alert.None? && View() == old(View())
      ensures old(currentUser).Some? ==> sent == Some((old(currentUser).value.id, old(formData).name))
      ensures old(currentUser).Some? && saved ==>
        alert.None? && View() == old(View()).(isEditOpen := false, formLoading := false)
      ensures old(currentUser).Some? && !saved ==>
        alert == Some(EditFailedAlert) && View() == old(View()).(formLoading := false)
    {
      if currentUser.None? {
        return None, None;
      }
      formLoading := true;
      sent := Some((currentUser.value.id, formData.name));
      if saved {
        isEditOpen := false;
        alert := None;
      } else {
        alert := Some(EditFailedAlert);
      }
      formLoading := false;
    }

    /** `handleDeleteClick(user)`. */
    method HandleDeleteClick(u: UserData)
      modifies this
      ensures View() == old(View()).(currentUser := Some(u), isDeleteOpen := true)
    {
      currentUser := Some(u);
      isDeleteOpen := true;
    }

    /** `handleDeleteSubmit`: without a current user nothing happens;
        otherwise `DELETE /users/<id>` is sent. */
    method HandleDeleteSubmit(deleted: bool) returns (sent: Option<int>, alert: Option<string>)
      modifies this
      ensures old(currentUser).None? ==> sent.None? && alert.None? && View() == old(View())
      ensures old(currentUser).Some? ==> sent == Some(old(currentUser).value.id)
      ensures old(currentUser).Some? && deleted ==>
        alert.None? && View() == old(View()).(isDeleteOpen := false, formLoading := false)
      ensures old(currentUser).Some? && !deleted ==>
        alert == Some(DeleteFailedAlert) && View() == old(View()).(formLoading := false)
    {
      if currentUser.None? {
        return None, None;
      }
      formLoading := true;
      sent := Some(currentUser.value.id);
      if deleted {
        isDeleteOpen := false;
        alert := None;
      } else {
        alert := Some(DeleteFailedAlert);
      }
      formLoading := false;
    }
  }
}
