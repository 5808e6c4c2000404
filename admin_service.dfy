/**
 * The admin-profile service: the two list reads, which swallow errors into an empty list,
 * the profile writes, and the login audit insert, which never fails.
 */
module AdminService {
  import opened Wrappers
  import opened Types
  import opened Store

  const ProfileTable := "admin_profiles"
  const LogTable := "admin_login_logs"
  const UnnamedUser := "İsimsiz"
  const UnknownIp := "Bilinmiyor"

  /** An `admin_profiles` row; every column the mapper defaults may be null. */
  datatype ProfileRow = ProfileRow(
    id: string, username: Option<string>, email: Option<string>, role: Option<Role>,
    status: Option<AccountStatus>, created_at: Option<string>, last_login: Option<string>)

  /** An `admin_login_logs` row. */
  datatype LogRow = LogRow(
    id: string, user_id: string, username: string, ip_address: Option<string>,
    status: LoginStatus, timestamp: string)

  /** An object sent to `admin_profiles`; `id` is listed so that its absence can be stated. */
  datatype ProfileColumns = ProfileColumns(
    id: Option<Value>, username: Option<Value>, email: Option<Value>, role: Option<Value>,
    status: Option<Value>)

  /** An object sent to `admin_login_logs`. */
  datatype LogColumns = LogColumns(
    user_id: Option<Value>, username: Option<Value>, ip_address: Option<Value>,
    status: Option<Value>, timestamp: Option<Value>)

  /** The fields of `Partial<AdminUser>` that `update` reads. */
  datatype ProfileChanges = ProfileChanges(username: Option<string>, role: Option<Role>, email: Option<string>)

  /** What `create` is given. */
  datatype NewProfile = NewProfile(username: string, email: string, role: Role)

  /** What `recordLoginLog` is given; `userId` may be undefined. */
  datatype LoginAttempt = LoginAttempt(userId: Option<string>, username: string, ip: string, status: LoginStatus)

  /**
   * The profile mapping of `getAll`: username defaults to 'İsimsiz', email and last login
   * to '', role to editor, status to active, and the creation time to `now`.
   */
  function MapProfile(u: ProfileRow, now: string): (r: AdminUser)
    ensures r.username == OrElse(u.username, UnnamedUser) && r.email == OrElse(u.email, "")
    ensures r.role == u.role.GetOr(Editor) && r.status == u.status.GetOr(Active)
    ensures r.createdAt == OrElse(u.created_at, now) && r.lastLogin == OrElse(u.last_login, "")
    ensures r.id == u.id
  {
    AdminUser(u.id, OrElse(u.username, UnnamedUser), OrElse(u.email, ""), u.role.GetOr(Editor),
      u.status.GetOr(Active), OrElse(u.created_at, now), OrElse(u.last_login, ""))
  }

  /** `getAll`: never fails; an error or missing data gives no users. */
  function GetAll(reply: Reply<seq<ProfileRow>>, now: string): (r: seq<AdminUser>)
    ensures reply.error.Some? || reply.data.None? ==> r == []
    ensures reply.error.None? && reply.data.Some? ==>
      |r| == |reply.data.value| && forall i :: 0 <= i < |r| ==> r[i] == MapProfile(reply.data.value[i], now)
  {
    MapAllOrEmpty(reply, (u: ProfileRow) => MapProfile(u, now))
  }

  /** The log mapping of `getLoginLogs`: a missing or empty address reads 'Bilinmiyor'. */
  function MapLog(log: LogRow): (r: LoginLog)
    ensures r.ip == OrElse(log.ip_address, UnknownIp)
    ensures r.userId == log.user_id && r.status == log.status && r.timestamp == log.timestamp
    ensures r.id == log.id && r.username == log.username
  {
    LoginLog(log.id, log.user_id, log.username, OrElse(log.ip_address, UnknownIp), log.status, log.timestamp)
  }

  /** `getLoginLogs`: never fails; an error or missing data gives no entries. */
  function GetLoginLogs(reply: Reply<seq<LogRow>>): (r: seq<LoginLog>)
    ensures reply.error.Some? || reply.data.None? ==> r == []
    ensures reply.error.None? && reply.data.Some? ==>
      |r| == |reply.data.value| && forall i :: 0 <= i < |r| ==> r[i] == MapLog(reply.data.value[i])
  {
    MapAllOrEmpty(reply, MapLog)
  }

  /** `updateStatus`: writes only `status` and hands back the updated row; an error is rethrown. */
  function UpdateStatus(id: string, status: AccountStatus, reply: Outcome<ProfileRow>): (r: (Command<ProfileColumns>, Outcome<ProfileRow>))
    ensures r.0 == UpdateWhereId(ProfileTable, id, ProfileColumns(None, None, None, None, Some(JStr(status.Code()))))
    ensures r.1 == reply
  {
    (UpdateWhereId(ProfileTable, id, ProfileColumns(None, None, None, None, Some(JStr(status.Code())))), reply)
  }

  /** `update`: writes username, role and email (a key only where the field is defined), never status. */
  function Update(id: string, c: ProfileChanges, reply: Outcome<ProfileRow>): (r: (Command<ProfileColumns>, Outcome<ProfileRow>))
    ensures r.0.UpdateWhereId? && r.0.table == ProfileTable && r.0.id == id
    ensures r.0.changes.username == OptStr(c.username) && r.0.changes.email == OptStr(c.email)
    ensures r.0.changes.role == (if c.role.Some? then Some(JStr(c.role.value.Code())) else None)
    ensures r.0.changes.status.None? && r.0.changes.id.None?
    ensures r.1 == reply
  {
    var role := if c.role.Some? then Some(JStr(c.role.value.Code())) else None;
    (UpdateWhereId(ProfileTable, id, ProfileColumns(None, OptStr(c.username), OptStr(c.email), role, None)), reply)
  }

  /** `create`: inserts an active profile without an id, leaving the id to the store. */
  function Create(u: NewProfile, error: Option<Fault>): (r: (Command<ProfileColumns>, Outcome<()>))
    ensures r.0.Insert? && r.0.table == ProfileTable
    ensures r.0.row.id.None? && r.0.row.status == Some(JStr("active"))
    ensures r.0.row.username == Some(JStr(u.username)) && r.0.row.email == Some(JStr(u.email))
    ensures r.0.row.role == Some(JStr(u.role.Code()))
    ensures r.1.Err? <==> error.Some?
  {
    (Insert(ProfileTable, ProfileColumns(None, Some(JStr(u.username)), Some(JStr(u.email)),
      Some(JStr(u.role.Code())), Some(JStr(Active.Code())))), ThrowIfError(error))
  }

  /** `delete`: an error is rethrown. */
  function Delete(id: string, error: Option<Fault>): (r: (Command<ProfileColumns>, Outcome<()>))
    ensures r.0 == DeleteWhereId(ProfileTable, id)
    ensures r.1.Err? <==> error.Some?
  {
    (DeleteWhereId(ProfileTable, id), ThrowIfError(error))
  }

  /** `recordLoginLog`: inserts the attempt stamped `now`; a remote error is only logged, never thrown. */
  function RecordLoginLog(log: LoginAttempt, now: string, error: Option<Fault>): (r: (Command<LogColumns>, Outcome<()>))
    ensures r.0 == Insert(LogTable, LogColumns(OptStr(log.userId), Some(JStr(log.username)),
      Some(JStr(log.ip)), Some(JStr(log.status.Code())), Some(JStr(now))))
    ensures r.1 == Ok(())
  {
    (Insert(LogTable, LogColumns(OptStr(log.userId), Some(JStr(log.username)), Some(JStr(log.ip)),
      Some(JStr(log.status.Code())), Some(JStr(now)))), Ok(()))
  }
}
