/**
 * Sign-up and sign-in: the four-criterion password check, the sign-up guard chain that builds a new
 * student, and the fixed-profile sign-in pages.
 */
module Auth {
  import opened Wrappers
  import opened MockData
  import App

  predicate IsLowerLetter(c: char) { 'a' <= c <= 'z' }
  predicate IsUpperLetter(c: char) { 'A' <= c <= 'Z' }
  predicate IsDigit(c: char) { '0' <= c <= '9' }

  /** `[^A-Za-z0-9]`: anything but an ASCII letter or digit. */
  predicate IsSymbol(c: char) { !(IsLowerLetter(c) || IsUpperLetter(c) || IsDigit(c)) }

  /** `/[...]/.test(s)`: some character of `s` is in the class. */
  function AnyChar(s: string, inClass: char -> bool): (b: bool)
    ensures b <==> exists i :: 0 <= i < |s| && inClass(s[i])
  {
    if s == [] then false
    else if inClass(s[0]) then true
    else
      var b := AnyChar(s[1..], inClass);
      assert forall i :: 1 <= i < |s| ==> s[i] == s[1..][i - 1];
      b
  }

  datatype PasswordCriteria = PasswordCriteria(length: bool, lowercase: bool, uppercase: bool, symbol: bool)

  /** `checkPasswordStrength`. */
  function CheckPasswordStrength(password: string): (c: PasswordCriteria)
    ensures c.length <==> |password| >= 6
    ensures c.lowercase <==> exists i :: 0 <= i < |password| && IsLowerLetter(password[i])
    ensures c.uppercase <==> exists i :: 0 <= i < |password| && IsUpperLetter(password[i])
    ensures c.symbol <==> exists i :: 0 <= i < |password| && IsSymbol(password[i])
  {
    PasswordCriteria(|password| >= 6, AnyChar(password, IsLowerLetter), AnyChar(password, IsUpperLetter),
                     AnyChar(password, IsSymbol))
  }

  /** `Object.values(passwordCriteria).every(Boolean)`. */
  predicate AllCriteriaMet(c: PasswordCriteria) {
    c.length && c.lowercase && c.uppercase && c.symbol
  }

  /** Digits never count as a symbol. */
  lemma DigitsAreNoSymbol(password: string)
    requires forall i :: 0 <= i < |password| ==> IsDigit(password[i])
    ensures !CheckPasswordStrength(password).symbol
  {
  }

  /** A strong password meets every criterion; one with no upper-case letter does not. */
  lemma CriteriaExamples()
    ensures AllCriteriaMet(CheckPasswordStrength("Campus#1"))
    ensures !AllCriteriaMet(CheckPasswordStrength("campus#1"))
  {
    var strong := "Campus#1";
    assert IsUpperLetter(strong[0]) && IsLowerLetter(strong[1]) && IsSymbol(strong[6]);
    var weak := "campus#1";
    assert forall i :: 0 <= i < |weak| ==> !IsUpperLetter(weak[i]);
  }

  /** The sign-up form's text fields. */
  datatype SignUpForm = SignUpForm(name: string, enrollmentNumber: string, email: string, department: string)

  const InitialSignUpForm := SignUpForm("", "", "", "Computer Science")

  /** The avatar a new student gets without a photo: the seed student's picture. */
  const DefaultAvatar := StudentAvatar

  datatype SignUpError = WeakPassword | PasswordMismatch

  /** `photoPreview || default`: a chosen, non-empty photo, otherwise the default avatar. */
  function AvatarFor(photo: Option<string>): string {
    if photo.Some? && photo.value != [] then photo.value else DefaultAvatar
  }

  /**
   * `StudentSignUp.handleSubmit`: a password that misses a criterion is refused first; then a
   * confirmation that differs is refused; otherwise the new student is built from the form, with id
   * `s` followed by the clock reading `stamp`.
   */
  function SignUp(form: SignUpForm, password: string, confirm: string, photo: Option<string>, stamp: string)
    : (r: Result<User, SignUpError>)
    ensures r == Failure(WeakPassword) <==> !AllCriteriaMet(CheckPasswordStrength(password))
    ensures r == Failure(PasswordMismatch) <==> AllCriteriaMet(CheckPasswordStrength(password)) && password != confirm
    ensures r.Success? <==> AllCriteriaMet(CheckPasswordStrength(password)) && password == confirm
    ensures r.Success? ==>
              && r.value.role == Some(Student)
              && r.value.name == form.name && r.value.email == form.email
              && r.value.enrollmentNumber == Some(form.enrollmentNumber)
              && r.value.department == Some(form.department)
              && r.value.avatarUrl == Some(AvatarFor(photo))
              && r.value.id == "s" + stamp
  {
    if !AllCriteriaMet(CheckPasswordStrength(password)) then Failure(WeakPassword)
    else if password != confirm then Failure(PasswordMismatch)
    else Success(User("s" + stamp, form.name, form.email, Some(Student), Some(form.enrollmentNumber),
                      Some(form.department), Some(AvatarFor(photo))))
  }

  /** A signed-up user, once registered, is shown the student dashboard. */
  lemma SignUpOpensStudentDashboard(form: SignUpForm, password: string, confirm: string, photo: Option<string>, stamp: string)
    requires SignUp(form, password, confirm, photo, stamp).Success?
    ensures var u := SignUp(form, password, confirm, photo, stamp).value;
            App.RenderView(App.DashboardView(u.role), Some(u)) == App.DashboardScreen(Student)
  {
  }

  /** The sign-up page's form state. */
  class SignUpPage {
    var photoPreview: Option<string>
    var password: string
    var confirmPassword: string
    var formData: SignUpForm

    constructor ()
      ensures photoPreview == None && password == "" && confirmPassword == "" && formData == InitialSignUpForm
    {
      photoPreview := None;
      password := "";
      confirmPassword := "";
      formData := InitialSignUpForm;
    }

    /** The checklist shown under the password field. */
    function Criteria(): PasswordCriteria
      reads this
    {
      CheckPasswordStrength(password)
    }

    method SetPassword(v: string)
      modifies this`password
      ensures password == v
    {
      password := v;
    }

    method SetConfirmPassword(v: string)
      modifies this`confirmPassword
      ensures confirmPassword == v
    {
      confirmPassword := v;
    }

    method SetForm(v: SignUpForm)
      modifies this`formData
      ensures formData == v
    {
      formData := v;
    }

    /** The photo reader finished with the data URL `dataUrl`. */
    method PhotoLoaded(dataUrl: string)
      modifies this`photoPreview
      ensures photoPreview == Some(dataUrl)
    {
      photoPreview := Some(dataUrl);
    }

    /** Submitting leaves the page's state as it is and yields the user to register, or the error. */
    method HandleSubmit(stamp: string) returns (r: Result<User, SignUpError>)
      ensures r == SignUp(formData, password, confirmPassword, photoPreview, stamp)
    {
      if !AllCriteriaMet(CheckPasswordStrength(password)) {
        return Failure(WeakPassword);
      }
      if password != confirmPassword {
        return Failure(PasswordMismatch);
      }
      var avatar := if photoPreview.Some? && photoPreview.value != [] then photoPreview.value else DefaultAvatar;
      r := Success(User("s" + stamp, formData.name, formData.email, Some(Student),
                        Some(formData.enrollmentNumber), Some(formData.department), Some(avatar)));
    }
  }

  /** `StudentSignIn`: whatever was typed, the seed student signs in. */
  function StudentSignIn(enrollmentNumber: string, password: string): (u: User)
    ensures u == MockStudent && u.role == Some(Student)
  {
    MockStudent
  }

  /** `StaffLogin`: the admin profile exactly on the admin page, otherwise the staff profile. */
  function StaffLogin(isAdmin: bool): (u: User)
    ensures u == MockAdmin <==> isAdmin
    ensures u.role == Some(if isAdmin then Admin else Staff)
    ensures u in UserDatabase
  {
    if isAdmin then MockAdmin else MockStaff
  }
}
