/** The route handler `userEmailChange` (src/routes/user/email/change.ts): a
    signed-in user asks to change their email address; a confirmation ticket is
    stored on their record and mailed to the new address. */
module EmailChange {
  import opened Http

  /** The configuration the handler reads from `ENV`. */
  datatype Env = Env(clientUrl: string, serverUrl: string, emailsEnabled: bool)

  /** `req.body.options`; `redirectTo` is optional inside it. */
  datatype ChangeOptions = ChangeOptions(redirectTo: Option<string>)

  /** The validated request: the body's `newEmail` and `options`, and the
      `userId` of `req.auth` (absent when `auth` or `userId` is). */
  datatype Request = Request(newEmail: string, options: Option<ChangeOptions>, authUserId: Option<string>)

  /** A row of the users table, with the columns the handler touches or reads. */
  datatype User = User(
    email: Option<string>,
    newEmail: Option<string>,
    ticket: Option<string>,
    ticketExpiresAt: int,
    displayName: string,
    locale: string,
    emailVerified: bool,
    disabled: bool,
    passwordHash: Option<string>)

  /** The `user` argument of `gqlSdk.updateUser`: the three columns written. */
  datatype UserPatch = UserPatch(ticket: string, ticketExpiresAt: int, newEmail: string)

  /** One entry of `message.headers`. */
  datatype Header = Header(prepared: bool, value: string)

  /** The template variables handed to `emailClient.send`. */
  datatype Locals = Locals(
    displayName: string, ticket: string, redirectTo: string,
    locale: string, serverUrl: string, clientUrl: string)

  /** An outbound email as given to `emailClient.send`. */
  datatype Email = Email(template: string, locals: Locals, to: string, headers: map<string, Header>)

  const TicketPrefix := "emailConfirmChange:"
  const ConfirmChangeTemplate := "email-confirm-change"
  /** The lifetime handed to `generateTicketExpiresAt`: one hour, in seconds. */
  const TicketLifetime := 60 * 60

  const RedirectNotAllowed := "'redirectTo' is not allowed"
  const SmtpUnavailable := "SMTP settings unavailable"
  const MustBeSignedIn := "User must be signed in"
  const UnableToGetUser := "Unable to get user"

  /** `options?.redirectTo ?? ENV.AUTH_CLIENT_URL`. Only a missing value falls
      back to the client URL; an empty string is kept. */
  function RedirectTarget(options: Option<ChangeOptions>, clientUrl: string): (r: string)
    ensures options.Some? && options.value.redirectTo.Some? ==> r == options.value.redirectTo.value
    ensures options.None? || options.value.redirectTo.None? ==> r == clientUrl
  {
    match options
    case Some(ChangeOptions(Some(target))) => target
    case _ => clientUrl
  }

  /** `req.auth?.userId` is truthy: present and not the empty string. */
  predicate SignedIn(authUserId: Option<string>) {
    authUserId.Some? && authUserId.value != ""
  }

  /** What the three guards decide: stop with a reply, or go on for this user
      with this redirect target. */
  datatype Gate = Stop(reply: Reply) | Proceed(userId: string, redirectTo: string)

  /** The handler's guards, in their order: redirect target allowed, then
      emails enabled, then signed in. A request that fails several gets the first
      failing guard's reply. */
  function Screen(req: Request, env: Env, isValidRedirectTo: string -> bool): (g: Gate)
    ensures !isValidRedirectTo(RedirectTarget(req.options, env.clientUrl)) ==>
              g == Stop(Boom(BadRequest(RedirectNotAllowed)))
    ensures isValidRedirectTo(RedirectTarget(req.options, env.clientUrl)) && !env.emailsEnabled ==>
              g == Stop(Thrown(SmtpUnavailable))
    ensures isValidRedirectTo(RedirectTarget(req.options, env.clientUrl)) && env.emailsEnabled &&
            !SignedIn(req.authUserId) ==>
              g == Stop(Boom(Unauthorized(MustBeSignedIn)))
    ensures g.Proceed? <==>
              isValidRedirectTo(RedirectTarget(req.options, env.clientUrl)) && env.emailsEnabled &&
              SignedIn(req.authUserId)
    ensures g.Proceed? ==>
              req.authUserId == Some(g.userId) && g.userId != "" &&
              g.redirectTo == RedirectTarget(req.options, env.clientUrl) &&
              isValidRedirectTo(g.redirectTo)
  {
    var redirectTo := RedirectTarget(req.options, env.clientUrl);
    if !isValidRedirectTo(redirectTo) then Stop(Boom(BadRequest(RedirectNotAllowed)))
    else if !env.emailsEnabled then Stop(Thrown(SmtpUnavailable))
    else if !SignedIn(req.authUserId) then Stop(Boom(Unauthorized(MustBeSignedIn)))
    else Proceed(req.authUserId.value, redirectTo)
  }

  /** `emailConfirmChange:${uuidv4()}`, with the generated id given. */
  function ChangeTicket(id: string): (t: string)
    ensures |t| == |TicketPrefix| + |id|
    ensures t[..|TicketPrefix|] == TicketPrefix && t[|TicketPrefix|..] == id
  {
    TicketPrefix + id
  }

  /** Distinct ids give distinct tickets: the id is recoverable from the ticket. */
  lemma ChangeTicketInjective(a: string, b: string)
    requires ChangeTicket(a) == ChangeTicket(b)
    ensures a == b
  {
  }

  /** `generateTicketExpiresAt(seconds)`, taken to be `seconds` after `now`;
      the helper itself is not part of this model. */
  function TicketExpiresAt(now: int, seconds: nat): int
  {
    now + seconds
  }

  /** All columns other than the three the update writes are equal. */
  predicate SameOutsidePatch(u: User, v: User) {
    && u.email == v.email
    && u.displayName == v.displayName
    && u.locale == v.locale
    && u.emailVerified == v.emailVerified
    && u.disabled == v.disabled
    && u.passwordHash == v.passwordHash
  }

  /** The row after `updateUser` writes `patch` to it. */
  function ApplyPatch(u: User, patch: UserPatch): (v: User)
    ensures v.ticket == Some(patch.ticket)
    ensures v.ticketExpiresAt == patch.ticketExpiresAt
    ensures v.newEmail == Some(patch.newEmail)
    ensures SameOutsidePatch(u, v)
  {
    u.(ticket := Some(patch.ticket), ticketExpiresAt := patch.ticketExpiresAt, newEmail := Some(patch.newEmail))
  }

  /** The confirmation message handed to `emailClient.send`, built from the updated row. */
  function ConfirmationEmail(user: User, ticket: string, redirectTo: string, newEmail: string, env: Env): (m: Email)
    ensures m.to == newEmail && m.template == ConfirmChangeTemplate
    ensures m.locals.ticket == ticket && m.locals.redirectTo == redirectTo
    ensures m.locals.displayName == user.displayName && m.locals.locale == user.locale
    ensures m.locals.serverUrl == env.serverUrl && m.locals.clientUrl == env.clientUrl
    ensures m.headers.Keys == {"x-ticket", "x-redirect-to", "x-email-template"}
    ensures m.headers["x-ticket"] == Header(true, ticket)
    ensures m.headers["x-redirect-to"] == Header(true, redirectTo)
    ensures m.headers["x-email-template"] == Header(true, m.template)
  {
    Email(
      ConfirmChangeTemplate,
      Locals(user.displayName, ticket, redirectTo, user.locale, env.serverUrl, env.clientUrl),
      newEmail,
      map["x-ticket" := Header(true, ticket),
          "x-redirect-to" := Header(true, redirectTo),
          "x-email-template" := Header(true, ConfirmChangeTemplate)])
  }

  /** The state the handler works on: the users table behind `gqlSdk`, keyed
      by user id, and the messages handed to `emailClient` so far. */
  class AuthBackend {
    var users: map<string, User>
    var outbox: seq<Email>

    constructor (initial: map<string, User>)
      ensures users == initial && outbox == []
    {
      users := initial;
      outbox := [];
    }

    /** `gqlSdk.updateUser`: an update by primary key, which returns no user
        when no row has that id. */
    method UpdateUser(id: string, patch: UserPatch) returns (updated: Option<User>)
      modifies this
      ensures id in old(users) ==>
                updated == Some(ApplyPatch(old(users)[id], patch)) && users == old(users)[id := updated.value]
      ensures id !in old(users) ==> updated == None && users == old(users)
      ensures outbox == old(outbox)
    {
      if id in users {
        var row := ApplyPatch(users[id], patch);
        users := users[id := row];
        updated := Some(row);
      } else {
        updated := None;
      }
    }

    /** `emailClient.send`: the message joins the outbox. */
    method Send(m: Email)
      modifies this
      ensures outbox == old(outbox) + [m]
      ensures users == old(users)
    {
      outbox := outbox + [m];
    }

    /** `userEmailChange`, with `uuidv4()` supplied as `id`, the clock as `now`
        and `isValidRedirectTo` as a predicate. */
    method UserEmailChange(req: Request, env: Env, isValidRedirectTo: string -> bool, id: string, now: int)
      returns (reply: Reply)
      modifies this
      // a failing guard answers with that guard's reply and touches nothing
      ensures Screen(req, env, isValidRedirectTo).Stop? ==>
                reply == Screen(req, env, isValidRedirectTo).reply &&
                users == old(users) && outbox == old(outbox)
      // signed in, but no row for that id: the handler throws and sends nothing
      ensures Screen(req, env, isValidRedirectTo).Proceed? && req.authUserId.value !in old(users) ==>
                reply == Thrown(UnableToGetUser) && users == old(users) && outbox == old(outbox)
      // success: only this user's three columns change, and one email goes out
      ensures Screen(req, env, isValidRedirectTo).Proceed? && req.authUserId.value in old(users) ==>
                var userId := req.authUserId.value;
                var ticket := ChangeTicket(id);
                var row := ApplyPatch(old(users)[userId], UserPatch(ticket, TicketExpiresAt(now, TicketLifetime), req.newEmail));
                && reply == Sent("ok")
                && users == old(users)[userId := row]
                && outbox == old(outbox) +
                     [ConfirmationEmail(row, ticket, RedirectTarget(req.options, env.clientUrl), req.newEmail, env)]
      // the table keeps its ids, and nobody else's row changes
      ensures users.Keys == old(users).Keys
      ensures forall k :: k in old(users) && req.authUserId != Some(k) ==> users[k] == old(users)[k]
      // an email is sent only on success, to the new address, carrying the ticket now stored
      ensures outbox != old(outbox) <==> reply == Sent("ok")
      ensures reply == Sent("ok") ==>
                && req.authUserId.Some? && req.authUserId.value in users
                && |outbox| == |old(outbox)| + 1 && outbox[..|old(outbox)|] == old(outbox)
                && var m := outbox[|outbox| - 1];
                   && m.to == req.newEmail && m.template == ConfirmChangeTemplate
                   && users[req.authUserId.value].ticket == Some(m.locals.ticket)
                   && m.headers["x-ticket"].value == m.locals.ticket == ChangeTicket(id)
                   && users[req.authUserId.value].newEmail == Some(req.newEmail)
                   && users[req.authUserId.value].email == old(users)[req.authUserId.value].email
                   && users[req.authUserId.value].ticketExpiresAt == now + TicketLifetime
    {
      var gate := Screen(req, env, isValidRedirectTo);
      if gate.Stop? {
        return gate.reply;
      }
      var ticket := ChangeTicket(id);
      var ticketExpiresAt := TicketExpiresAt(now, TicketLifetime);
      var updated := UpdateUser(gate.userId, UserPatch(ticket, ticketExpiresAt, req.newEmail));
      if updated.None? {
        return Thrown(UnableToGetUser);
      }
      Send(ConfirmationEmail(updated.value, ticket, gate.redirectTo, req.newEmail, env));
      reply := Sent("ok");
    }
  }
}
