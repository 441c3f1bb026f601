# hasura-auth: password policy and email-change tickets

A Dafny model of two request-path decisions of the hasura-auth service:

- **Password policy** (`isPasswordValid`). A password is checked by three guards in a fixed order. First it must be set, then it must be at least `MIN_PASSWORD_LENGTH` long, then, when HIBP checking is enabled, it must not be reported as breached. The first failing guard answers 400 and the check returns `false`. The model is the pure function `Password.IsPasswordValid`. It returns the boolean, the error responses written and the passwords handed to the breach lookup. Its contract states the precedence of the guards, when the lookup is consulted, that each `false` answers exactly once and `true` never, and exactly when the result is `true`. JavaScript's `password.length` counts UTF-16 code units, so the length is `JsText.Utf16Length`. The too-short message prints the configured minimum in decimal (`JsText.NatToDecimal`). It is proved to determine that minimum uniquely.
- **Email change** (`userEmailChange`). The guards run in order: redirect target allowed, emails enabled, user signed in. Then a ticket `emailConfirmChange:<uuid>` with a one-hour expiry is written to the user's row, touching only `ticket`, `ticketExpiresAt` and `newEmail`. The confirmation email then goes to the *new* address and carries the same ticket. The pure parts are functions: redirect defaulting, the guard chain, the ticket, the expiry, the row update and the message. The handler is the method `UserEmailChange` of the class `AuthBackend`. That class holds the users table as a `map` and the sent mail as an `outbox` sequence.

Collaborators the code calls but does not define become parameters:
- the HIBP lookup `pwnedPassword` is an oracle `pwned: string -> bool`;
- `isValidRedirectTo` is a predicate parameter;
- `uuidv4()` is a supplied id string, and the clock is a supplied `now`;
- `generateTicketExpiresAt(s)` is taken to be `now + s`, since src/utils/ticket is not part of this model;
- `gqlSdk.updateUser` is an update by primary key on the `users` map, which returns no user when the id has no row;
- `emailClient.send` appends to `outbox`.

Two facts about the code that the model keeps:
- disabled email sending throws an `Error`;
- the password check begins with a "not set" guard.

## Model

| member | source | states |
|---|---|---|
| `JsText.Utf16Length` | src/utils/password.ts:21 | `password.length` counts UTF-16 code units. It lies between the character count and twice it, and equals the character count exactly when every character is in the Basic Multilingual Plane. |
| `JsText.NatToDecimal` | src/utils/password.ts:23 | `${MIN_PASSWORD_LENGTH}`, for a minimum below 10^21, is a non-empty string of decimal digits with no leading zero (except for 0 itself). |
| `JsText.DecimalRoundTrip` | src/utils/password.ts:23 | Reading back the printed numeral gives the number that was printed. |
| `JsText.NatToDecimalInjective` | src/utils/password.ts:23 | Different minimums are printed differently. |
| `Password.IsPasswordValid` | src/utils/password.ts:11-35 | A missing or empty password is rejected with "Password is not set", without a lookup. A set password shorter than the minimum is rejected as too short whatever its breach status, without a lookup. The lookup is made at most once, on that password, exactly when it is set, long enough and HIBP is enabled. If it reports a breach, the answer is "Password is too weak.". With HIBP disabled, every set password that is long enough passes. The result is `true` iff the password is set and long enough, and not (enabled and pwned). `false` comes with exactly one 400 response and `true` with none. |
| `Password.LengthInCharacters` | src/utils/password.ts:21-26 | A password with at least the minimum number of characters is never rejected as too short. For Basic Multilingual Plane text, too short means fewer characters than the minimum. |
| `Password.TooShortMessageInjective` | src/utils/password.ts:22-24 | The too-short message determines the configured minimum. |
| `EmailChange.RedirectTarget` | src/routes/user/email/change.ts:35 | `options.redirectTo` when it is present, otherwise `AUTH_CLIENT_URL`. A present empty string is kept. |
| `EmailChange.Screen` | src/routes/user/email/change.ts:34-46 | A disallowed redirect target gives 400 "'redirectTo' is not allowed" before anything else. Otherwise, disabled emails throw "SMTP settings unavailable". Otherwise, a missing or empty `userId` gives 401. The handler proceeds iff all three pass, with the authenticated id and the computed redirect target. |
| `EmailChange.ChangeTicket` | src/routes/user/email/change.ts:50 | The ticket is the literal prefix `emailConfirmChange:` followed by exactly the generated id. |
| `EmailChange.ChangeTicketInjective` | src/routes/user/email/change.ts:50 | Distinct ids give distinct tickets. |
| `EmailChange.ApplyPatch` | src/routes/user/email/change.ts:54-61 | The update sets `ticket`, `ticketExpiresAt` and `newEmail` to the given values. It leaves `email` and every other column as they were. |
| `EmailChange.ConfirmationEmail` | src/routes/user/email/change.ts:69-97 | The message goes to `newEmail` with template `email-confirm-change`. Its locals carry the ticket, the redirect target, the user's display name and locale, and the server and client URLs. It has exactly the headers `x-ticket`, `x-redirect-to` and `x-email-template`, all prepared, with the ticket, the redirect target and the template. |
| `EmailChange.AuthBackend.UpdateUser` | src/routes/user/email/change.ts:54-63 | The row with that id gets the patch and is returned, and other rows are unchanged. With no such row, nothing changes and no user is returned. The outbox is untouched. |
| `EmailChange.AuthBackend.Send` | src/routes/user/email/change.ts:70-97 | The message is appended to the outbox, and the table is untouched. |
| `EmailChange.AuthBackend.UserEmailChange` | src/routes/user/email/change.ts:26-100 | A failing guard returns its reply and changes neither the table nor the outbox. If the signed-in id has no row, the handler throws "Unable to get user" and sends nothing. Otherwise only that user's three columns change, to the ticket `emailConfirmChange:<id>`, `now + 3600` and the new email. Then exactly one confirmation email is appended, addressed to the new email, and its locals and `x-ticket` header carry the stored ticket. `'ok'` is returned exactly when an email was sent. |

## Left out

- The HIBP transport behind `pwnedPassword` (requests, timeouts, errors) is left out. It is an uninterpreted oracle, and the code shows no handling of its failures.
- `uuidv4` randomness is left out. The id is an input, and uniqueness and unpredictability are not modelled.
- `isValidRedirectTo` and `generateTicketExpiresAt` are not part of this model. They are a predicate parameter and `now + seconds`.
- Errors raised by the GraphQL client are left out. Only the "no user returned" path of `updateUser` is modelled.
- `res.boom` and Express response machinery, async scheduling, and `console.log` are left out. Responses are values.
- Template rendering and SMTP delivery of the email are left out. Sending is an append to the outbox.
- The route registration in src/routes/signin/index.ts is left out: it has no logic of its own. The sign-in handlers it imports are not part of this model.
- Confirming or consuming the email-change ticket, checking its expiry, and issuing sessions are left out. None of these happen in the modelled code.
- `password` is modelled as absent or a string. The declared type excludes `null` and other non-string values.
- JsText.NatToDecimal: the minimum length is an unbounded `nat`. JavaScript holds integers exactly only up to 2^53 and prints numbers from 10^21 upward in exponent form (`1e+21`). The too-short message matches the code only for minimums below 10^21.
- JsText.Utf16Length and Password.IsPasswordValid: passwords containing unpaired surrogates are outside the model. A Dafny `char` is a Unicode scalar value, while a JavaScript string from a JSON body may hold a lone surrogate, which `length` counts as one.
- A rejected `emailClient.send` is left out. In the code it throws after `updateUser` has already stored the new ticket, expiry and `newEmail`, so the row keeps the ticket and no email goes out. The model's `UserEmailChange` assumes sending succeeds.
