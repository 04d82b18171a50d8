/** The submit handler of frontend/src/pages/Register.jsx: the two password
    checks, then the registration call (a parameter here), then the page
    the new account is sent to. */
module Register {
  import opened Optional

  datatype RegisterForm = RegisterForm(email: string, password: string, confirmPassword: string, userType: string)

  /** What the registration call answers. */
  datatype RegisterResult = RegisterResult(success: bool, error: string)

  datatype Outcome =
    | Invalid(message: string)      // shown without calling the server
    | Redirect(path: string)        // registered, sent to the account's home
    | Refused(message: string)      // the server's error, shown as it came

  const MismatchMessage := "Passwords do not match"
  const ShortMessage := "Password must be at least 6 characters"

  /** The local checks, mismatch first. */
  function Validate(form: RegisterForm): (r: Option<string>)
    ensures form.password != form.confirmPassword ==> r == Some(MismatchMessage)
    ensures form.password == form.confirmPassword && |form.password| < 6 ==> r == Some(ShortMessage)
    ensures r.None? <==> form.password == form.confirmPassword && |form.password| >= 6
  {
    if form.password != form.confirmPassword then Some(MismatchMessage)
    else if |form.password| < 6 then Some(ShortMessage)
    else None
  }

  /** The account's home page: customers to the products, partners to the
      orders, and every other account type to the admin dashboard. */
  function HomeFor(userType: string): (path: string)
    ensures userType == "customer" ==> path == "/customer/products"
    ensures userType == "partner" ==> path == "/partner/orders"
    ensures userType != "customer" && userType != "partner" ==> path == "/admin/dashboard"
  {
    if userType == "customer" then "/customer/products"
    else if userType == "partner" then "/partner/orders"
    else "/admin/dashboard"
  }

  /** The submit handler; `register` stands for the context's call to the
      server and is only made when the local checks pass. */
  function Submit(form: RegisterForm, register: RegisterForm -> RegisterResult): (r: Outcome)
    ensures Validate(form).Some? ==> r == Invalid(Validate(form).value)
    ensures Validate(form).None? && register(form).success ==> r == Redirect(HomeFor(form.userType))
    ensures Validate(form).None? && !register(form).success ==> r == Refused(register(form).error)
  {
    match Validate(form)
    case Some(message) => Invalid(message)
    case None =>
      var result := register(form);
      if result.success then Redirect(HomeFor(form.userType)) else Refused(result.error)
  }

  /** The outcome of a form whose passwords differ or are too short does not
      depend on the server: no registration is made for it. */
  lemma InvalidFormNeverRegisters(form: RegisterForm, r1: RegisterForm -> RegisterResult, r2: RegisterForm -> RegisterResult)
    requires form.password != form.confirmPassword || |form.password| < 6
    ensures Submit(form, r1) == Submit(form, r2)
    ensures Submit(form, r1).Invalid?
  {
  }

  /** A mismatch is reported even when the password is also too short. */
  lemma MismatchReportedFirst(form: RegisterForm, register: RegisterForm -> RegisterResult)
    requires form.password != form.confirmPassword && |form.password| < 6
    ensures Submit(form, register) == Invalid(MismatchMessage)
  {
  }

  /** Every redirect goes to one of the three home pages, and the same
      account type always to the same one. */
  lemma RedirectsAreHomes(form: RegisterForm, register: RegisterForm -> RegisterResult)
    requires Submit(form, register).Redirect?
    ensures Submit(form, register).path in ["/customer/products", "/partner/orders", "/admin/dashboard"]
    ensures register(form).success
  {
  }
}
