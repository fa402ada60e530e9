/** dummy_code.js's `authenticateUser`: `auth.sendCode`, then `auth.signIn` with
    the `phone_code_hash` the first answer carried, both through the migrating
    adapter.  Every error is caught and logged, so nothing reaches the caller. */
module Auth {
  import opened Wrappers
  import opened Mtproto
  import opened Adapters

  /** The login code the sign-in sends; the source hard-codes this placeholder. */
  const PhoneCode := "PHONE_CODE"

  /** The specification of `authenticateUser`: the state after the sequence, with
      the outcome of the last call made. */
  function Authenticate(respond: Oracle, trace: seq<Sent>, dc: Option<int>, phoneNumber: string): Step {
    var sentCode := MigratingCall(respond, trace, dc, SendCode(phoneNumber));
    if sentCode.outcome.Failure? then sentCode
    else
      MigratingCall(respond, sentCode.trace, sentCode.dc,
                    SignIn(phoneNumber, PhoneCode, sentCode.outcome.value.phoneCodeHash))
  }

  method AuthenticateUser(api: Client, phoneNumber: string)
    modifies api
    ensures var s := Authenticate(api.respond, old(api.trace), old(api.defaultDc), phoneNumber);
      api.trace == s.trace && api.defaultDc == s.dc
  {
    var sentCode := CallTelegramApi(api, SendCode(phoneNumber));
    if sentCode.Failure? {
      return;
    }
    var phoneCodeHash := sentCode.value.phoneCodeHash;
    var signInResult := CallTelegramApi(api, SignIn(phoneNumber, PhoneCode, phoneCodeHash));
  }

  /** The calls `authenticateUser` makes: first `auth.sendCode` for the phone number
      (retried once on a redirect); then, only if that succeeded, `auth.signIn` for
      the same number with the placeholder code and exactly the `phone_code_hash`
      the send-code answer held (`undefined` if it held none). */
  lemma SignInFollowsSendCode(respond: Oracle, trace: seq<Sent>, dc: Option<int>, phoneNumber: string)
    ensures var sentCode := MigratingCall(respond, trace, dc, SendCode(phoneNumber));
      var s := Authenticate(respond, trace, dc, phoneNumber);
      && |trace| < |sentCode.trace| <= |s.trace|
      && s.trace[..|sentCode.trace|] == sentCode.trace
      && s.trace[..|trace|] == trace
      && (forall k :: |trace| <= k < |sentCode.trace| ==> s.trace[k].rpc == SendCode(phoneNumber))
      && (sentCode.outcome.Failure? ==> s.trace == sentCode.trace)
      && (sentCode.outcome.Success? ==>
            && |sentCode.trace| < |s.trace|
            && forall k :: |sentCode.trace| <= k < |s.trace| ==>
                 s.trace[k].rpc
                 == SignIn(phoneNumber, PhoneCode, sentCode.outcome.value.phoneCodeHash))
  {
    var sentCode := MigratingCall(respond, trace, dc, SendCode(phoneNumber));
    MigratingCallAtMostOneRetry(respond, trace, dc, SendCode(phoneNumber));
    if sentCode.outcome.Success? {
      var rpc := SignIn(phoneNumber, PhoneCode, sentCode.outcome.value.phoneCodeHash);
      MigratingCallAtMostOneRetry(respond, sentCode.trace, sentCode.dc, rpc);
      var s := Authenticate(respond, trace, dc, phoneNumber);
      assert s.trace[..|trace|] == s.trace[..|sentCode.trace|][..|trace|];
    }
  }
}
