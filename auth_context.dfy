/**
 * The authentication context: the mapping from a session of the identity service to the
 * panel's `AdminUser`, the session callbacks that set the current user, `login` with its
 * audit entries and `logout`. The identity service's calls are parameters and requests.
 */
module AuthContext {
  import opened Wrappers
  import opened Types
  import opened Text
  import AdminService

  const FallbackUsername := "Admin"
  const AuditIp := "Client Side"
  const OutsideProvider := "useAuth must be used within an AuthProvider"

  /** The user of a session; `email` may be missing and `role` is the metadata role, if any. */
  datatype SessionUser = SessionUser(id: string, email: Option<string>, role: Option<Role>, createdAt: string)

  /** The user handed back by a successful sign-in. */
  datatype SignedIn = SignedIn(id: string, email: Option<string>)

  /** The identity and audit calls the provider issues, in the order it issues them. */
  datatype Request =
    | SignInWithPassword(email: string, password: string)
    | RecordLoginLog(attempt: AdminService.LoginAttempt)
    | SignOut

  /** `email?.split('@')[0] || 'Admin'`: the text before the first '@', or 'Admin' when that is empty or there is no email. */
  function UsernameOf(email: Option<string>): (name: string)
    ensures name != "" && '@' !in name
    ensures email.None? ==> name == FallbackUsername
    ensures email.Some? && name != FallbackUsername ==> StartsWith(email.value, name)
  {
    if email.None? then FallbackUsername
    else
      var part := Split(email.value, '@')[0];
      SplitFirstPiece(email.value, '@');
      if part != "" then part else FallbackUsername
  }

  /** An address `local@domain` with a non-empty local part gives the local part as user name. */
  lemma UsernameIsLocalPart(local: string, domain: string)
    requires local != "" && '@' !in local
    ensures UsernameOf(Some(local + "@" + domain)) == local
  {
    SplitAtFirst(local, '@', domain);
    assert local + "@" + domain == local + ['@'] + domain;
  }

  /** An address starting with '@', and the empty address, give the fallback name. */
  lemma UsernameOfEmptyLocalPart(domain: string)
    ensures UsernameOf(Some("@" + domain)) == FallbackUsername
    ensures UsernameOf(Some("")) == FallbackUsername
  {
    SplitAtFirst("", '@', domain);
    assert "" + ['@'] + domain == "@" + domain;
  }

  /**
   * The user a session stands for: email defaults to '', the role to super admin, the status
   * is always active and the last login is the time of the mapping.
   */
  function UserOf(s: SessionUser, now: string): (u: AdminUser)
    ensures u.id == s.id && u.createdAt == s.createdAt && u.lastLogin == now
    ensures u.email == s.email.GetOr("") && u.username == UsernameOf(s.email)
    ensures u.role == s.role.GetOr(SuperAdmin) && u.status == Active
  {
    AdminUser(s.id, UsernameOf(s.email), s.email.GetOr(""), s.role.GetOr(SuperAdmin), Active, s.createdAt, now)
  }

  /** `useAuth`: the context inside a provider; outside one it throws. */
  function UseAuth<C>(context: Option<C>): (r: Outcome<C>)
    ensures r.Err? <==> context.None?
    ensures r.Err? ==> r.fault == Fault(true, Some(OutsideProvider))
    ensures r.Ok? ==> Some(r.value) == context
  {
    if context.Some? then Ok(context.value) else Err(Fault(true, Some(OutsideProvider)))
  }

  /** The audit entry of a failed sign-in: no user id, and the address exactly as typed. */
  function FailedAttempt(email: string): (a: AdminService.LoginAttempt)
    ensures a.status == Failed && a.username == email && a.userId == Some("")
  {
    AdminService.LoginAttempt(Some(""), email, AuditIp, Failed)
  }

  /** The audit entry of a successful sign-in: the user's id and its user name. */
  function SuccessAttempt(u: SignedIn): (a: AdminService.LoginAttempt)
    ensures a.status == Success && a.userId == Some(u.id) && a.username == UsernameOf(u.email)
  {
    AdminService.LoginAttempt(Some(u.id), UsernameOf(u.email), AuditIp, Success)
  }

  class AuthProvider {
    var user: Option<AdminUser>
    var loading: bool
    var sent: seq<Request>

    constructor ()
      ensures user.None? && loading && sent == []
    {
      user := None;
      loading := true;
      sent := [];
    }

    /** The children are rendered only once the session is resolved. */
    predicate RendersChildren()
      reads this
    {
      !loading
    }

    /** `checkSession`: a session sets the user; without one the user stays as it was. Loading ends either way. */
    method CheckSession(session: Option<SessionUser>, now: string)
      modifies this`user, this`loading
      ensures user == (if session.Some? then Some(UserOf(session.value, now)) else old(user))
      ensures !loading && RendersChildren()
    {
      if session.Some? {
        user := Some(UserOf(session.value, now));
      }
      loading := false;
    }

    /** The auth-change callback: a session sets the user, no session clears it. Loading ends either way. */
    method AuthChange(session: Option<SessionUser>, now: string)
      modifies this`user, this`loading
      ensures user == (if session.Some? then Some(UserOf(session.value, now)) else None)
      ensures !loading
    {
      if session.Some? {
        user := Some(UserOf(session.value, now));
      } else {
        user := None;
      }
      loading := false;
    }

    /**
     * `login`: the sign-in is sent. On an error a failed attempt with the typed address is
     * recorded and only then is the error rethrown; on success with a user a success entry is
     * recorded. The audit insert never fails, so neither path is cut short by it. The current
     * user is not set here: the auth-change callback does that.
     */
    method Login(email: string, password: string, reply: Reply<SignedIn>) returns (r: Outcome<()>)
      modifies this`sent
      ensures reply.error.Some? ==>
        sent == old(sent) + [SignInWithPassword(email, password), RecordLoginLog(FailedAttempt(email))]
        && r == Err(reply.error.value)
      ensures reply.error.None? && reply.data.Some? ==>
        sent == old(sent) + [SignInWithPassword(email, password), RecordLoginLog(SuccessAttempt(reply.data.value))]
        && r == Ok(())
      ensures reply.error.None? && reply.data.None? ==>
        sent == old(sent) + [SignInWithPassword(email, password)] && r == Ok(())
    {
      sent := sent + [SignInWithPassword(email, password)];
      if reply.error.Some? {
        sent := sent + [RecordLoginLog(FailedAttempt(email))];
        return Err(reply.error.value);
      }
      if reply.data.Some? {
        sent := sent + [RecordLoginLog(SuccessAttempt(reply.data.value))];
      }
      r := Ok(());
    }

    /** `logout`: signs out, then clears the user. */
    method Logout()
      modifies this`sent, this`user
      ensures sent == old(sent) + [SignOut] && user.None?
    {
      sent := sent + [SignOut];
      user := None;
    }
  }
}
