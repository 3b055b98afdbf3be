/** `_is_authorized`: an admin check, then a per-bot entitlement check, each
    answered by the `db` module, which is not part of this model. */
module AuthGate {

  /** One call to a `db` check: a truthy result, a falsy result, or an exception. */
  datatype Answer = Grants | Denies | Raises

  datatype Check = AdminCheck | EntitlementCheck

  /** The verdict and the checks consulted to reach it, in order. */
  datatype Decision = Decision(granted: bool, consulted: seq<Check>)

  /** `db.is_admin(user_id)` first; only when it does not grant,
      `db.is_user_authorized(user_id, bot_username)`. An exception from
      either counts as "did not grant". */
  function Authorize(admin: Answer, entitled: Answer): (d: Decision)
    // an admin is let in without the entitlement check being asked
    ensures admin == Grants ==> d.granted && d.consulted == [AdminCheck]
    // otherwise both checks are asked, in order
    ensures admin != Grants ==> d.consulted == [AdminCheck, EntitlementCheck]
    // fail-closed: nothing but an explicit grant lets a user in
    ensures d.granted ==> admin == Grants || entitled == Grants
    // an admin check that raises or denies falls through to the entitlement check
    ensures admin != Grants ==> d.granted == (entitled == Grants)
  {
    if admin == Grants then Decision(true, [AdminCheck])
    else Decision(entitled == Grants, [AdminCheck, EntitlementCheck])
  }

  /** An unreachable oracle never lets anyone in. */
  lemma OracleOutageDenies(admin: Answer, entitled: Answer)
    requires admin != Grants && entitled == Raises
    ensures !Authorize(admin, entitled).granted
  {
  }
}
