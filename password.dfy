/** The password policy check `isPasswordValid` (src/utils/password.ts): an
    ordered chain of guards, each of which answers 400 and returns `false`. */
module Password {
  import opened Http
  import JsText

  /** The configuration the check reads: `ENV.MIN_PASSWORD_LENGTH` and
      `REGISTRATION.HIBP_ENABLED`. */
  datatype Policy = Policy(minLength: nat, hibpEnabled: bool)

  /** Everything one call does: the boolean it resolves to, the error
      responses it writes, and the passwords it hands to the breach lookup. */
  datatype Outcome = Outcome(valid: bool, sent: seq<BoomError>, lookups: seq<string>)

  const NotSetMessage := "Password is not set"
  const TooWeakMessage := "Password is too weak."

  /** The 400 message for a short password; it names the configured minimum. */
  function TooShortMessage(minLength: nat): (m: string) {
    "Password is too short. The password must be minimum " + JsText.NatToDecimal(minLength) + " chars."
  }

  /** `password` is truthy: present and not the empty string. */
  predicate IsSet(password: Option<string>) {
    password.Some? && password.value != ""
  }

  /** `isPasswordValid`, with the breach lookup `pwnedPassword` as the oracle
      `pwned`. The lookup is recorded in `lookups` whenever it is consulted. */
  function IsPasswordValid(password: Option<string>, policy: Policy, pwned: string -> bool): (r: Outcome)
    // the boolean result and the response channel agree: false answers exactly once, true never
    ensures r.valid <==> r.sent == []
    ensures !r.valid ==> |r.sent| == 1 && r.sent[0].BadRequest?
    // a missing or empty password wins over every other guard and consults nothing
    ensures !IsSet(password) ==> r == Outcome(false, [BadRequest(NotSetMessage)], [])
    // too short is reported whatever the breach status, and the lookup is not made
    ensures IsSet(password) && JsText.Utf16Length(password.value) < policy.minLength ==>
              r == Outcome(false, [BadRequest(TooShortMessage(policy.minLength))], [])
    // the lookup is made at most once, on this password, and only after both cheaper guards passed
    ensures |r.lookups| <= 1 && (forall q :: q in r.lookups ==> password == Some(q))
    ensures r.lookups != [] <==>
              IsSet(password) && JsText.Utf16Length(password.value) >= policy.minLength && policy.hibpEnabled
    // a compromised password that passed the other guards is too weak
    ensures IsSet(password) && JsText.Utf16Length(password.value) >= policy.minLength &&
            policy.hibpEnabled && pwned(password.value) ==>
              r == Outcome(false, [BadRequest(TooWeakMessage)], [password.value])
    // with breach checking off, every set password that is long enough passes
    ensures IsSet(password) && JsText.Utf16Length(password.value) >= policy.minLength && !policy.hibpEnabled ==>
              r == Outcome(true, [], [])
    // exactly when the result is true
    ensures r.valid <==>
              IsSet(password) && JsText.Utf16Length(password.value) >= policy.minLength &&
              !(policy.hibpEnabled && pwned(password.value))
  {
    if !IsSet(password) then
      Outcome(false, [BadRequest(NotSetMessage)], [])
    else if JsText.Utf16Length(password.value) < policy.minLength then
      Outcome(false, [BadRequest(TooShortMessage(policy.minLength))], [])
    else if policy.hibpEnabled then
      if pwned(password.value) then Outcome(false, [BadRequest(TooWeakMessage)], [password.value])
      else Outcome(true, [], [password.value])
    else
      Outcome(true, [], [])
  }

  /** Counting characters instead of code units never makes the check
      stricter: a password with at least `minLength` characters is never too short,
      and one whose characters all lie in the Basic Multilingual Plane is measured
      exactly by its character count. */
  lemma LengthInCharacters(p: string, policy: Policy, pwned: string -> bool)
    requires p != ""
    ensures |p| >= policy.minLength ==>
              IsPasswordValid(Some(p), policy, pwned).sent != [BadRequest(TooShortMessage(policy.minLength))]
    ensures (forall i :: 0 <= i < |p| ==> p[i] as int < 0x1_0000) ==>
              (IsPasswordValid(Some(p), policy, pwned).sent == [BadRequest(TooShortMessage(policy.minLength))]
               <==> |p| < policy.minLength)
  {
  }

  /** The too-short message determines the configured minimum. */
  lemma TooShortMessageInjective(m: nat, n: nat)
    requires TooShortMessage(m) == TooShortMessage(n)
    ensures m == n
  {
    var prefix := "Password is too short. The password must be minimum ";
    var dm, dn := JsText.NatToDecimal(m), JsText.NatToDecimal(n);
    // the surrounding text is fixed, so equal messages have numerals of equal length
    assert |dm| == |dn|;
    assert dm == TooShortMessage(m)[|prefix|..|prefix| + |dm|];
    assert dn == TooShortMessage(n)[|prefix|..|prefix| + |dn|];
    JsText.NatToDecimalInjective(m, n);
  }
}
