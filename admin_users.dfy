/**
 * The admin users page: the user list with its status toggle and delete, the add and edit
 * modal, and the login log tab. Every write goes to the admin service first, and the list
 * reflects it only once the call succeeded.
 */
module AdminUsers {
  import opened Wrappers
  import opened Types
  import opened Seqs
  import AdminService

  const LoadFailed := "Kullanıcılar yüklenemedi."
  const SaveFailed := "Kaydedilemedi."
  const DeleteQuestion := "Bu kullanıcıyı silmek istediğinize emin misiniz?"

  /** The two tabs of the page. */
  datatype Tab = UsersTab | LogsTab

  /** The modal's fields. The password is shown but never sent. */
  datatype UserForm = UserForm(username: string, email: string, role: Role, password: string)

  const BlankForm := UserForm("", "", Admin, "")

  /** The text inputs of the user modal. */
  datatype UserText = UsernameInput | EmailInput

  /** The admin service calls the page issues. */
  datatype Request =
    | UpdateUser(id: string, changes: AdminService.ProfileChanges)
    | CreateUser(user: AdminService.NewProfile)
    | SetUserStatus(id: string, status: AccountStatus)
    | DeleteUser(id: string)

  /** `roleLabels` */
  function RoleLabel(r: Role): Badge {
    match r
    case SuperAdmin => Badge("Süper Admin", "primary")
    case Admin => Badge("Admin", "info")
    case Editor => Badge("Editör", "secondary")
  }

  /** The three roles carry three different labels. */
  lemma RoleLabelInjective(a: Role, b: Role)
    ensures RoleLabel(a).text == RoleLabel(b).text ==> a == b
  {
  }

  /** `user.status === 'active' ? 'inactive' : 'active'` */
  function Opposite(s: AccountStatus): (t: AccountStatus)
    ensures t != s
  {
    if s == Active then Inactive else Active
  }

  /** Toggling twice sends the status back to where it was. */
  lemma OppositeTwice(s: AccountStatus)
    ensures Opposite(Opposite(s)) == s
  {
  }

  /** `openEditModal`: the user's name, email and role, with an empty password. */
  function EditForm(u: AdminUser): (f: UserForm)
    ensures f.username == u.username && f.email == u.email && f.role == u.role
    ensures f.password == ""
  {
    UserForm(u.username, u.email, u.role, "")
  }

  /** What `handleSave` sends: an update of name, role and email for an edit, otherwise a create. */
  function SaveRequest(editing: Option<AdminUser>, f: UserForm): (r: Request)
    ensures editing.Some? ==> r == UpdateUser(editing.value.id,
      AdminService.ProfileChanges(Some(f.username), Some(f.role), Some(f.email)))
    ensures editing.None? ==> r == CreateUser(AdminService.NewProfile(f.username, f.email, f.role))
  {
    if editing.Some? then UpdateUser(editing.value.id, AdminService.ProfileChanges(Some(f.username), Some(f.role), Some(f.email)))
    else CreateUser(AdminService.NewProfile(f.username, f.email, f.role))
  }

  predicate HasId(u: AdminUser, id: string) { u.id == id }

  /** The list after a successful status write. */
  function WithStatus(users: seq<AdminUser>, id: string, s: AccountStatus): seq<AdminUser> {
    MapWhere(users, (u: AdminUser) => HasId(u, id), (u: AdminUser) => u.(status := s))
  }

  /** The list after a successful delete. */
  function WithoutId(users: seq<AdminUser>, id: string): seq<AdminUser> {
    Filter(users, (u: AdminUser) => !HasId(u, id))
  }

  /** A status write changes the status of the users with that id and nothing else. */
  lemma WithStatusAt(users: seq<AdminUser>, id: string, s: AccountStatus, i: int)
    requires 0 <= i < |users|
    ensures |WithStatus(users, id, s)| == |users|
    ensures users[i].id == id ==> WithStatus(users, id, s)[i] == users[i].(status := s)
    ensures users[i].id != id ==> WithStatus(users, id, s)[i] == users[i]
  {
    MapWhereAt(users, (u: AdminUser) => HasId(u, id), (u: AdminUser) => u.(status := s), i);
  }

  /** A delete removes every user with that id and keeps every occurrence of the others. */
  lemma WithoutIdExact(users: seq<AdminUser>, id: string, u: AdminUser)
    ensures multiset(WithoutId(users, id))[u] == if u.id == id then 0 else multiset(users)[u]
  {
    FilterMultiset(users, (x: AdminUser) => !HasId(x, id), u);
  }

  class AdminUsersPage {
    var users: seq<AdminUser>
    var logs: seq<LoginLog>
    var loading: bool
    var logsLoading: bool
    var showModal: bool
    var editing: Option<AdminUser>
    var activeTab: Tab
    var saving: bool
    var error: Option<string>
    var form: UserForm
    var sent: seq<Request>

    constructor ()
      ensures users == [] && logs == [] && loading && !logsLoading && !showModal && editing.None?
      ensures activeTab == UsersTab && !saving && error.None? && form == BlankForm && sent == []
    {
      users := [];
      logs := [];
      loading := true;
      logsLoading := false;
      showModal := false;
      editing := None;
      activeTab := UsersTab;
      saving := false;
      error := None;
      form := BlankForm;
      sent := [];
    }

    /**
     * `loadUsers`: the list is replaced on success; a failure keeps it and sets the load error.
     * Loading is over on both paths. The admin service's `getAll` never rejects, so from the
     * page's own calls `result` is always `Ok`.
     */
    method LoadUsers(result: Outcome<seq<AdminUser>>)
      modifies this`users, this`loading, this`error
      ensures users == (if result.Ok? then result.value else old(users))
      ensures error == (if result.Ok? then old(error) else Some(LoadFailed))
      ensures !loading
    {
      loading := true;
      if result.Ok? {
        users := result.value;
      } else {
        error := Some(LoadFailed);
      }
      loading := false;
    }

    /** `loadLogs`: a failure keeps the old logs and sets no error. */
    method LoadLogs(result: Outcome<seq<LoginLog>>)
      modifies this`logs, this`logsLoading
      ensures logs == (if result.Ok? then result.value else old(logs))
      ensures !logsLoading
    {
      logsLoading := true;
      if result.Ok? {
        logs := result.value;
      }
      logsLoading := false;
    }

    /**
     * Switching tabs. The effect on the tab runs only when the tab changes; arriving on the log
     * tab loads the logs from `reply`, any other switch loads nothing.
     */
    method SetActiveTab(t: Tab, reply: Outcome<seq<LoginLog>>)
      modifies this`activeTab, this`logs, this`logsLoading
      ensures activeTab == t
      ensures t == LogsTab && old(activeTab) != LogsTab ==>
        logs == (if reply.Ok? then reply.value else old(logs)) && !logsLoading
      ensures !(t == LogsTab && old(activeTab) != LogsTab) ==> logs == old(logs) && logsLoading == old(logsLoading)
    {
      var changed := t != activeTab;
      activeTab := t;
      if changed && t == LogsTab {
        LoadLogs(reply);
      }
    }

    /** Typing into a text input of the modal: that field of the form becomes the input's value. */
    method EditText(input: UserText, value: string)
      modifies this`form
      ensures input == UsernameInput ==> form == old(form).(username := value)
      ensures input == EmailInput ==> form == old(form).(email := value)
    {
      match input
      case UsernameInput => form := form.(username := value);
      case EmailInput => form := form.(email := value);
    }

    /** The role select: the form's role becomes the chosen role. */
    method SelectRole(role: Role)
      modifies this`form
      ensures form == old(form).(role := role)
    {
      form := form.(role := role);
    }

    /** The overlay, the × and the Cancel button close the modal without saving; the form is kept. */
    method CloseModal()
      modifies this`showModal
      ensures !showModal
    {
      showModal := false;
    }

    /** `openAddModal`: an empty form with role 'admin'. */
    method OpenAddModal()
      modifies this`editing, this`form, this`showModal
      ensures editing.None? && form == BlankForm && form.role == Admin && showModal
    {
      editing := None;
      form := BlankForm;
      showModal := true;
    }

    /** `openEditModal` */
    method OpenEditModal(u: AdminUser)
      modifies this`editing, this`form, this`showModal
      ensures editing == Some(u) && form == EditForm(u) && showModal
    {
      editing := Some(u);
      form := EditForm(u);
      showModal := true;
    }

    /**
     * `handleSave`: the error is cleared and the update or create is sent. On success the list
     * is reloaded from `reload` and the modal closes; on failure the error is the fault's message
     * or the save fallback, and the modal stays open. Saving is over on both paths.
     */
    method HandleSave(outcome: Outcome<()>, reload: Outcome<seq<AdminUser>>)
      modifies this`sent, this`saving, this`error, this`users, this`loading, this`showModal
      ensures sent == old(sent) + [SaveRequest(editing, form)]
      ensures outcome.Ok? ==>
        && users == (if reload.Ok? then reload.value else old(users))
        && error == (if reload.Ok? then None else Some(LoadFailed))
        && !loading && !showModal
      ensures outcome.Err? ==>
        && users == old(users) && loading == old(loading) && showModal == old(showModal)
        && error == Some(TruthyMessageOr(outcome.fault, SaveFailed))
      ensures !saving
    {
      saving := true;
      error := None;
      sent := sent + [SaveRequest(editing, form)];
      if outcome.Ok? {
        LoadUsers(reload);
        showModal := false;
      } else {
        error := Some(TruthyMessageOr(outcome.fault, SaveFailed));
      }
      saving := false;
    }

    /** `toggleStatus`: the opposite status is sent, and the list changes only once it succeeded. */
    method ToggleStatus(u: AdminUser, outcome: Outcome<AdminService.ProfileRow>)
      modifies this`sent, this`users
      ensures sent == old(sent) + [SetUserStatus(u.id, Opposite(u.status))]
      ensures users == (if outcome.Ok? then WithStatus(old(users), u.id, Opposite(u.status)) else old(users))
    {
      var newStatus := Opposite(u.status);
      sent := sent + [SetUserStatus(u.id, newStatus)];
      if outcome.Ok? {
        users := WithStatus(users, u.id, newStatus);
      }
    }

    /**
     * `deleteUser`: unless the question is confirmed nothing is sent and nothing changes;
     * otherwise the delete is sent and the user leaves the list only once it succeeded.
     */
    method DeleteUser(id: string, confirmed: bool, outcome: Outcome<()>)
      modifies this`sent, this`users
      ensures sent == (if confirmed then old(sent) + [Request.DeleteUser(id)] else old(sent))
      ensures users == (if confirmed && outcome.Ok? then WithoutId(old(users), id) else old(users))
    {
      if !confirmed {
        return;
      }
      sent := sent + [Request.DeleteUser(id)];
      if outcome.Ok? {
        users := WithoutId(users, id);
      }
    }
  }
}
