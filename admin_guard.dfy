/** The admin middleware (api/utils/verifyAdmin.js). Both guards only read:
    `verifyAdmin` re-reads the caller's record on every request instead of
    trusting anything carried by the session token. */
module AdminGuard {
  import opened Common
  import opened UserModel

  /** `verifyAdmin`. `caller` is the identity the session guard attached (`None`
      when none was); `storeFault` stands for the store read throwing. The first
      failing check decides the answer. */
  function VerifyAdmin(users: map<Id, User>, caller: Option<Id>, storeFault: bool): (r: Outcome)
    ensures caller.None? ==> r.Fail? && r.error.status == 401
    ensures caller.Some? && storeFault ==> r.Fail? && r.error.status == 500
    ensures caller.Some? && !storeFault && caller.value !in users ==> r.Fail? && r.error.status == 404
    ensures caller.Some? && !storeFault && caller.value in users && !users[caller.value].isAdmin ==>
              r.Fail? && r.error.status == 403
  {
    if caller.None? then Fail(HttpError(401, "Unauthorized - Authentication required"))
    else if storeFault then Fail(HttpError(500, "Error verifying admin status"))
    else if caller.value !in users then Fail(HttpError(404, "User not found"))
    else if !users[caller.value].isAdmin then Fail(HttpError(403, "Forbidden - Admin access required"))
    else Pass
  }

  /** `verifyAdmin` passes exactly for a present, stored user whose stored flag is set. */
  lemma VerifyAdminPassesIff(users: map<Id, User>, caller: Option<Id>, storeFault: bool)
    ensures VerifyAdmin(users, caller, storeFault) == Pass <==>
              caller.Some? && !storeFault && caller.value in users && users[caller.value].isAdmin
  {
  }

  /** The decision follows the live flag: setting or clearing `isAdmin` in the
      store changes the very next decision, with the same session. */
  lemma VerifyAdminFollowsLiveFlag(users: map<Id, User>, id: Id, flag: bool)
    requires id in users
    ensures VerifyAdmin(users[id := users[id].(isAdmin := flag)], Some(id), false) ==
              if flag then Pass else Fail(HttpError(403, "Forbidden - Admin access required"))
  {
  }

  /** `verifyAdminPasscode`: strict equality with the configured passcode
      (`'admin123'` by default); an absent passcode never matches. */
  function VerifyAdminPasscode(passcode: Option<string>, env: Env): (r: Outcome)
    ensures r == Pass <==> passcode == Some(AdminPasscode(env))
    ensures r.Fail? ==> r.error == HttpError(403, "Invalid admin passcode")
  {
    if passcode != Some(AdminPasscode(env)) then Fail(HttpError(403, "Invalid admin passcode"))
    else Pass
  }
}
