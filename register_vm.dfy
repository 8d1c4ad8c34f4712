/**
 * The registration form (ViewModels/Auth/RegisterVM.cs) and the data annotations
 * on its four properties, read as a validity predicate. The `[EmailAddress]` syntax
 * rules are library code and enter as the uninterpreted predicate `isEmailAddress`.
 */
module ViewModels {
  import opened Nullable

  /** The bound form; a field the client did not send is null. */
  datatype RegisterVM = RegisterVM(
    username: Option<string>,
    email: Option<string>,
    password: Option<string>,
    confirmPassword: Option<string>)

  datatype Field = Username | Email | Password | ConfirmPassword

  /** One failed annotation, on the property that carries it. */
  datatype Violation =
    | Required(field: Field)
    | EmailAddress(field: Field)
    | Compare(field: Field, other: Field, message: string)

  /** The `ErrorMessage` given to `[Compare]` on ConfirmPassword. */
  const PasswordMismatch := "Password doesn't matches."

  /** `char.IsWhiteSpace`: the Unicode space, line and paragraph separators, U+0009..U+000D and U+0085. */
  predicate IsWhiteSpace(c: char) {
    var n := c as int;
    || n == 0x20 || 0x09 <= n <= 0x0D || n == 0x85 || n == 0xA0 || n == 0x1680
    || 0x2000 <= n <= 0x200A || n == 0x2028 || n == 0x2029 || n == 0x202F
    || n == 0x205F || n == 0x3000
  }

  /** `string.IsNullOrWhiteSpace` on a non-null string (the empty string is blank). */
  predicate IsBlank(s: string) {
    forall i :: 0 <= i < |s| ==> IsWhiteSpace(s[i])
  }

  /** `[Required]` with its default `AllowEmptyStrings = false`. */
  predicate Present(s: Option<string>) {
    s.Some? && !IsBlank(s.value)
  }

  function RequiredViolations(s: Option<string>, f: Field): set<Violation> {
    if Present(s) then {} else {Required(f)}
  }

  /** `[EmailAddress]` accepts null (that case belongs to `[Required]`). */
  function EmailViolations(s: Option<string>, isEmailAddress: string -> bool): set<Violation> {
    if s.None? || isEmailAddress(s.value) then {} else {EmailAddress(Email)}
  }

  /** `[Compare("Password")]` is `object.Equals`, so two nulls compare equal. */
  function CompareViolations(vm: RegisterVM): set<Violation> {
    if vm.confirmPassword == vm.password then {}
    else {Compare(ConfirmPassword, Password, PasswordMismatch)}
  }

  /**
   * Every annotation the form fails (RegisterVM.cs:7-22). The model is valid
   * exactly when all four fields are present and non-blank, the email has
   * address form and the confirmation equals the password.
   */
  function Violations(vm: RegisterVM, isEmailAddress: string -> bool): (vs: set<Violation>)
    ensures vs == {} <==>
      && Present(vm.username)
      && Present(vm.email) && isEmailAddress(vm.email.value)
      && Present(vm.password)
      && Present(vm.confirmPassword) && vm.confirmPassword == vm.password
    ensures Required(Username) in vs <==> !Present(vm.username)
    ensures Required(Email) in vs <==> !Present(vm.email)
    ensures EmailAddress(Email) in vs <==> vm.email.Some? && !isEmailAddress(vm.email.value)
    ensures Required(Password) in vs <==> !Present(vm.password)
    ensures Required(ConfirmPassword) in vs <==> !Present(vm.confirmPassword)
    ensures Compare(ConfirmPassword, Password, PasswordMismatch) in vs <==>
      vm.confirmPassword != vm.password
    ensures forall v :: v in vs ==>
      v in {Required(Username), Required(Email), EmailAddress(Email), Required(Password),
            Required(ConfirmPassword), Compare(ConfirmPassword, Password, PasswordMismatch)}
  {
    RequiredViolations(vm.username, Username)
    + RequiredViolations(vm.email, Email) + EmailViolations(vm.email, isEmailAddress)
    + RequiredViolations(vm.password, Password)
    + RequiredViolations(vm.confirmPassword, ConfirmPassword) + CompareViolations(vm)
  }

  /** `ModelState.IsValid` for a bound RegisterVM. */
  predicate Valid(vm: RegisterVM, isEmailAddress: string -> bool) {
    Violations(vm, isEmailAddress) == {}
  }
}
