/**
 * The sign-in and company registration screen
 * (ems-frontend/src/components/EMSAuthPage.js): which request a submit
 * sends, where a login leads, and how the form is reset.
 */
module AuthPage {
  import opened Wrappers
  import opened Text

  /** The seventeen inputs of the screen, login and registration together. */
  datatype AuthForm = AuthForm(
    email: string,
    password: string,
    companyName: string,
    companyEmail: string,
    companyPhone: string,
    companyAddress: string,
    companyWebsite: string,
    industryType: string,
    companySize: string,
    registrationNumber: string,
    establishedYear: string,
    adminFirstName: string,
    adminLastName: string,
    adminEmail: string,
    adminPhone: string,
    adminPassword: string,
    confirmPassword: string)

  const BlankForm := AuthForm("", "", "", "", "", "", "", "", "", "", "", "", "", "", "", "", "")

  /** The body of a registration request: the admin user and the company. */
  datatype Registration = Registration(
    firstName: string,
    lastName: string,
    email: string,
    phone: string,
    password: string,
    role: string,
    companyName: string,
    companyEmail: string,
    companyPhone: string,
    website: string,
    companyAddress: string,
    industryType: string,
    companySize: string,
    registrationNumber: string,
    establishedYear: string)

  datatype Request = LoginRequest(email: string, password: string) | RegisterRequest(body: Registration)

  /** What a request came back with: the status flag and the body text, or a thrown error. */
  datatype Response = Response(ok: bool, text: string) | NetworkError(message: string)

  datatype Role = CompanyAdmin | Employee

  const AdminRoute := "/admin-dashboard"
  const EmployeeRoute := "/employee-dashboard"

  /**
   * determineUserRole: a company admin when the email mentions "admin" or
   * "company" (case-sensitively), an employee otherwise. The screen defines
   * it but routes by `LoginDestination` instead.
   */
  function DetermineUserRole(email: string, password: string): (r: Role)
    ensures r == CompanyAdmin <==> Contains(email, "admin") || Contains(email, "company")
  {
    if Contains(email, "admin") || Contains(email, "company") then CompanyAdmin else Employee
  }

  /**
   * Where a login leads, given the response text: nowhere unless the text
   * mentions "successful"; then the admin dashboard exactly when the email
   * mentions "admin", the employee dashboard otherwise.
   */
  function LoginDestination(result: string, email: string): (r: Option<string>)
    ensures r.Some? <==> Contains(result, "successful")
    ensures r == Some(AdminRoute) <==> Contains(result, "successful") && Contains(email, "admin")
    ensures r == Some(EmployeeRoute) <==> Contains(result, "successful") && !Contains(email, "admin")
  {
    if !Contains(result, "successful") then None
    else if Contains(email, "admin") then Some(AdminRoute)
    else Some(EmployeeRoute)
  }

  /**
   * The role heuristic and the route disagree: an email that mentions
   * "company" but not "admin" is given the admin role yet is sent to the
   * employee dashboard.
   */
  lemma CompanyEmailRoutedAsEmployee(email: string, password: string, result: string)
    requires Contains(email, "company") && !Contains(email, "admin") && Contains(result, "successful")
    ensures DetermineUserRole(email, password) == CompanyAdmin
    ensures LoginDestination(result, email) == Some(EmployeeRoute)
  {
  }

  /** The registration body built from the form; the role is always "admin". */
  function RegistrationOf(f: AuthForm): (r: Registration)
    ensures r.role == "admin" && r.password == f.adminPassword && r.email == f.adminEmail
  {
    Registration(
      f.adminFirstName, f.adminLastName, f.adminEmail, f.adminPhone, f.adminPassword, "admin",
      f.companyName, f.companyEmail, f.companyPhone, f.companyWebsite, f.companyAddress,
      f.industryType, f.companySize, f.registrationNumber, f.establishedYear)
  }

  /** The screen's state. */
  class AuthView {
    var isLogin: bool
    var form: AuthForm

    constructor()
      ensures isLogin && form == BlankForm
    {
      isLogin := true;
      form := BlankForm;
    }

    /**
     * handleSubmit with the response passed in. In login mode the email and
     * password are sent and the alert shows the response text whatever its
     * status; in registration mode nothing is sent when the two passwords
     * differ, and an ok response switches to login mode. A failed request
     * changes nothing. The form is never cleared here.
     */
    method Submit(response: Response) returns (sent: Option<Request>, notice: Option<string>, navigated: Option<string>)
      modifies this
      ensures form == old(form)
      ensures old(isLogin) ==> sent == Some(LoginRequest(form.email, form.password)) && isLogin
      ensures old(isLogin) && response.Response? ==>
        (notice == Some(response.text) && navigated == LoginDestination(response.text, form.email))
      ensures old(isLogin) && response.NetworkError? ==>
        (notice == Some("Login failed: " + response.message) && navigated.None?)
      ensures !old(isLogin) ==> navigated.None?
      ensures !old(isLogin) && form.adminPassword != form.confirmPassword ==>
        (sent.None? && notice == Some("Passwords do not match!") && !isLogin)
      ensures !old(isLogin) && form.adminPassword == form.confirmPassword ==>
        sent == Some(RegisterRequest(RegistrationOf(form)))
      ensures !old(isLogin) && form.adminPassword == form.confirmPassword ==>
        (isLogin <==> response.Response? && response.ok)
      ensures !old(isLogin) && form.adminPassword == form.confirmPassword && response.Response? ==>
        notice == (if response.ok then Some("Registration successful! Please log in.") else None)
      ensures !old(isLogin) && form.adminPassword == form.confirmPassword && response.NetworkError? ==>
        notice == Some("Registration failed: " + response.message)
    {
      navigated := None;
      notice := None;
      if isLogin {
        sent := Some(LoginRequest(form.email, form.password));
        match response {
          case Response(_, text) => {
            notice := Some(text);
            navigated := LoginDestination(text, form.email);
          }
          case NetworkError(message) => {
            notice := Some("Login failed: " + message);
          }
        }
      } else if form.adminPassword != form.confirmPassword {
        sent := None;
        notice := Some("Passwords do not match!");
      } else {
        sent := Some(RegisterRequest(RegistrationOf(form)));
        match response {
          case Response(ok, _) => {
            if ok {
              notice := Some("Registration successful! Please log in.");
              isLogin := true;
            }
          }
          case NetworkError(message) => {
            notice := Some("Registration failed: " + message);
          }
        }
      }
    }

    /** toggleForm: the other mode, with all seventeen inputs cleared. */
    method ToggleForm()
      modifies this
      ensures isLogin == !old(isLogin)
      ensures form == BlankForm
    {
      isLogin := !isLogin;
      form := BlankForm;
    }
  }
}
