/**
 * How the screens and the server fit together: the payroll amounts the
 * client shows are the ones the server stores, and a login leads somewhere
 * exactly when the server accepts it.
 */
module Agreement {
  import opened Wrappers
  import opened Text
  import PayrollTab
  import PayrollController
  import AuthPage
  import AuthService

  /** The JSON body of a payroll submit, as the server's entity reads it. */
  function PayloadDoc(p: PayrollTab.PayrollPayload): PayrollController.PayrollDoc {
    PayrollController.PayrollDoc(
      None, Some(p.payrollId), Some(p.employeeId), Some(p.employeeName), Some(p.department),
      p.payPeriodStart, p.payPeriodEnd,
      p.baseSalary, p.overtime, p.bonus, p.taxWithholding, p.healthInsurance, p.retirement401k,
      p.grossPay, p.totalDeductions, p.netPay,
      Some(p.status), p.payDate)
  }

  /**
   * Whatever derived amounts the client sends, the server stores gross,
   * deductions and net computed from the six entered amounts, blank ones
   * counting as zero, exactly as the form computes them.
   */
  lemma ServerRecomputesFormAmounts(f: PayrollTab.PayrollForm, records: seq<PayrollTab.PayrollRecord>)
    ensures var d := PayrollController.Recalculated(PayloadDoc(PayrollTab.SubmitPayload(f, records)));
      d.grossPay == PayrollTab.GrossOf(f) && d.totalDeductions == PayrollTab.DeductionsOf(f)
      && d.netPay == PayrollTab.GrossOf(f) - PayrollTab.DeductionsOf(f)
  {
  }

  /**
   * When the form's read-only amounts agree with its inputs, as every amount
   * change keeps them, the server stores the submitted document unchanged.
   */
  lemma ServerKeepsDerivedForm(f: PayrollTab.PayrollForm, records: seq<PayrollTab.PayrollRecord>)
    requires PayrollTab.Derived(f)
    ensures PayrollController.Calculated(PayloadDoc(PayrollTab.SubmitPayload(f, records)))
    ensures PayrollController.Recalculated(PayloadDoc(PayrollTab.SubmitPayload(f, records)))
      == PayloadDoc(PayrollTab.SubmitPayload(f, records))
  {
    PayrollController.RecalculatedFixesCalculated(PayloadDoc(PayrollTab.SubmitPayload(f, records)));
  }

  /** The two texts the server answers a login with, as the screen tests them. */
  lemma LoginTexts()
    ensures Contains(AuthService.LoggedIn.body, "successful")
    ensures !Contains(AuthService.InvalidCredentials.body, "successful")
  {
    var ok := AuthService.LoggedIn.body;
    assert OccursAt(ok, "successful", 6);
    var refused := AuthService.InvalidCredentials.body;
    forall i | 0 <= i <= |refused| - |"successful"|
      ensures !OccursAt(refused, "successful", i)
    {
      assert refused[i] != 's';
      assert refused[i..i + 10][0] == refused[i];
    }
  }

  /**
   * The screen leaves the login page exactly when the server accepts the
   * email and password, and then for the admin dashboard exactly when the
   * email mentions "admin".
   */
  lemma NavigatesIffServerAccepts(users: map<string, AuthService.User>, enc: AuthService.Encoder, email: string, password: string)
    ensures var reply := AuthService.LoginResult(users, enc, email, password);
      AuthPage.LoginDestination(reply.body, email).Some? <==> reply == AuthService.LoggedIn
    ensures var reply := AuthService.LoginResult(users, enc, email, password);
      (AuthPage.LoginDestination(reply.body, email) == Some(AuthPage.AdminRoute)
       <==> reply == AuthService.LoggedIn && Contains(email, "admin"))
  {
    LoginTexts();
  }

  /** The user the server reads from the screen's registration body; no id is sent. */
  function RegisteredUser(r: AuthPage.Registration): AuthService.User {
    AuthService.User(
      None, r.firstName, r.lastName, r.email, r.phone, r.password, r.role,
      r.companyName, r.companyEmail, r.companyPhone, r.website, r.companyAddress,
      r.industryType, r.companySize, r.registrationNumber, r.establishedYear)
  }

  /**
   * With a sound encoder, an admin who has just registered from the screen
   * and then signs in with the same email and password reaches a dashboard.
   */
  lemma RegisteredAdminGetsIn(users: map<string, AuthService.User>, enc: AuthService.Encoder, form: AuthPage.AuthForm)
    requires AuthService.Sound(enc)
    ensures var u := RegisteredUser(AuthPage.RegistrationOf(form));
      var reply := AuthService.LoginResult(users[u.email := AuthService.Stored(u, enc)], enc, form.adminEmail, form.adminPassword);
      AuthPage.LoginDestination(reply.body, form.adminEmail).Some?
  {
    var u := RegisteredUser(AuthPage.RegistrationOf(form));
    AuthService.RegisteredUserCanLogIn(users, enc, u);
    LoginTexts();
  }
}
