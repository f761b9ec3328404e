/**
 * The email field both credential forms declare:
 * `yup.string().email('Please enter a valid email').required('Email is required')`.
 * yup's address check is library code and is a parameter here.
 */
module FormFields {
  import opened Wrappers

  const MsgEmailInvalid := "Please enter a valid email"
  const MsgEmailRequired := "Email is required"

  /**
   * The field's first error: the address check skips the empty string (yup
   * excludes it), so an empty field fails only `required`.
   */
  function EmailFieldError(email: string, looksLikeEmail: string -> bool): (e: Option<string>)
    ensures e.None? <==> email != "" && looksLikeEmail(email)
    ensures email == "" ==> e == Some(MsgEmailRequired)
    ensures email != "" && !looksLikeEmail(email) ==> e == Some(MsgEmailInvalid)
  {
    if email != "" && !looksLikeEmail(email) then Some(MsgEmailInvalid)
    else if email == "" then Some(MsgEmailRequired)
    else None
  }
}
