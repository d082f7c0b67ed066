/**
 * The field validators of `MountRequest`: a user id and a workspace id must not be
 * empty or whitespace only. An accepted id is kept exactly as given, not stripped.
 */
module MountModels {
  import opened Text
  import opened Schema

  const EMPTY_USER_ID := "用户ID不能为空"
  const EMPTY_WORKSPACE_ID := "工作区ID不能为空"

  /** The shared rule: `not v or not v.strip()` raises, anything else is returned. */
  function NonBlank(v: string, message: string): (r: Outcome<string>)
    ensures r.Raised? <==> AllSpace(v)
    ensures r.Raised? ==> r.exception == ValueError(message)
    ensures r.Returned? ==> r.value == v
  {
    StripEmptyIff(v);
    if v == "" || Strip(v) == "" then Raised(ValueError(message)) else Returned(v)
  }

  /** `MountRequest.validate_user_id`. */
  function ValidateUserId(v: string): (r: Outcome<string>)
    ensures r.Raised? <==> AllSpace(v)
    ensures r.Raised? ==> r.exception == ValueError(EMPTY_USER_ID)
    ensures r.Returned? ==> r.value == v
  {
    NonBlank(v, EMPTY_USER_ID)
  }

  /** `MountRequest.validate_workspace_id`. */
  function ValidateWorkspaceId(v: string): (r: Outcome<string>)
    ensures r.Raised? <==> AllSpace(v)
    ensures r.Raised? ==> r.exception == ValueError(EMPTY_WORKSPACE_ID)
    ensures r.Returned? ==> r.value == v
  {
    NonBlank(v, EMPTY_WORKSPACE_ID)
  }

  /** The empty id is refused. */
  lemma EmptyIdRefused()
    ensures ValidateUserId("").Raised? && ValidateWorkspaceId("").Raised?
  {
  }

  /** An id with a character other than whitespace is accepted unchanged, even with blanks around it. */
  lemma PaddedIdKept(v: string, i: nat)
    requires i < |v| && !IsSpace(v[i])
    ensures ValidateUserId(v) == Returned(v) && ValidateWorkspaceId(v) == Returned(v)
  {
  }

  /** Validation is idempotent: an accepted id passes again unchanged. */
  lemma ValidateIdempotent(v: string)
    requires ValidateUserId(v).Returned?
    ensures ValidateUserId(ValidateUserId(v).value) == ValidateUserId(v)
  {
  }
}
