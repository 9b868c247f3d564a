/** `useInvoicePDF`: the sender details put on an invoice PDF, taken from the
    signed-in user with fixed fallbacks. What the auth service returns is an input. */
module InvoicePdf {
  import opened Common

  /** The signed-in user: the email and the `full_name` of the metadata. */
  datatype AuthUser = AuthUser(email: Option<string>, fullName: Option<string>)

  /** `UserInfo`; every field is optional, and the hook starts from `{}`. */
  datatype UserInfo = UserInfo(name: Option<string>, email: Option<string>, address: Option<string>)

  const EmptyInfo: UserInfo := UserInfo(None, None, None)

  /** `full_name || email?.split('@')[0] || 'Your Company'`. */
  function DisplayName(u: AuthUser): (r: string)
    ensures r != ""
    ensures Truthy(u.fullName) ==> r == u.fullName.value
    ensures !Truthy(u.fullName) && u.email.Some? && BeforeFirst(u.email.value, '@') != "" ==>
      r == BeforeFirst(u.email.value, '@') && StartsWith(u.email.value, r) && '@' !in r
    ensures !Truthy(u.fullName) && (u.email.None? || BeforeFirst(u.email.value, '@') == "") ==> r == "Your Company"
  {
    OrElse(u.fullName, OrElse(if u.email.Some? then Some(BeforeFirst(u.email.value, '@')) else None, "Your Company"))
  }

  /** The details for a signed-in user: every field is set. */
  function InfoFor(u: AuthUser): (i: UserInfo)
    ensures i.name == Some(DisplayName(u))
    ensures Truthy(u.email) ==> i.email == u.email
    ensures !Truthy(u.email) ==> i.email == Some("your@email.com")
    ensures i.address == Some("Your Business Address")
  {
    UserInfo(Some(DisplayName(u)), Some(OrElse(u.email, "your@email.com")), Some("Your Business Address"))
  }

  /** An email whose local part is empty falls back to the company placeholder. */
  lemma EmptyLocalPart(domain: string)
    ensures DisplayName(AuthUser(Some("@" + domain), None)) == "Your Company"
  {
    assert BeforeFirst("@" + domain, '@') == "";
  }

  class Hook {
    var userInfo: UserInfo
    var loading: bool

    constructor ()
      ensures userInfo == EmptyInfo && loading
    {
      userInfo, loading := EmptyInfo, true;
    }

    /** `fetchUserInfo`: `user` is `Err` when reading the user throws. */
    method FetchUserInfo(user: Result<Option<AuthUser>>)
      modifies this
      ensures user.Ok? && user.value.Some? ==> userInfo == InfoFor(user.value.value)
      ensures !(user.Ok? && user.value.Some?) ==> userInfo == old(userInfo)
      ensures !loading
    {
      if user.Ok? && user.value.Some? {
        userInfo := InfoFor(user.value.value);
      }
      loading := false;
    }
  }
}
