/** How an operation chooses the service identifier it sends. */
module ServiceIdentify {

  /** AddUser, EditUser, GetAntUIDList: a non-empty override replaces the
      configured identifier. */
  function Override(configured: string, override: string): (r: string)
    ensures override != "" ==> r == override
    ensures override == "" ==> r == configured
  {
    if override != "" then override else configured
  }

  /** ModifyPwd: the first variadic argument, when one is passed, replaces
      the configured identifier, even when it is empty. */
  function FirstOf(configured: string, services: seq<string>): (r: string)
    ensures |services| > 0 ==> r == services[0]
    ensures services == [] ==> r == configured
  {
    if |services| > 0 then services[0] else configured
  }

  /** The two rules agree on a single explicit identifier except when it is
      empty and the configured one is not. */
  lemma OverrideVersusFirstOf(configured: string, given: string)
    ensures Override(configured, given) == FirstOf(configured, [given]) <==> given != "" || configured == ""
  {
  }
}
