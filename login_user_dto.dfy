/** `LoginUserDto` of src/auth/dto/login-user.dto.ts. */
module LoginUserDto {
  import opened ClassValidator
  import CreateUserDto

  datatype LoginUserDto = LoginUserDto(email: Value, password: Value)

  const EmailRules: seq<Constraint> := [IsEmail]
  const PasswordRules: seq<Constraint> := [IsString, MinLength(1), MaxLength(256)]

  function Violations(dto: LoginUserDto, isEmail: string -> bool): (r: set<Violation>)
    ensures forall x :: x in r ==>
        (x.property == "email" && x.constraint in EmailRules) ||
        (x.property == "password" && x.constraint in PasswordRules)
  {
    PropertyViolations("email", dto.email, EmailRules, isEmail)
      + PropertyViolations("password", dto.password, PasswordRules, isEmail)
  }

  predicate PasswordAccepted(v: Value)
  {
    v.Str? && 1 <= |v.s| <= 256
  }

  /** The login body passes exactly when the email passes `IsEmail` and the
      password is a string of length 1 to 256; the empty password fails. */
  lemma {:induction false} ValidIff(dto: LoginUserDto, isEmail: string -> bool)
    ensures Violations(dto, isEmail) == {} <==>
      dto.email.Str? && isEmail(dto.email.s) && PasswordAccepted(dto.password)
    ensures dto.password == Str("") ==> Violation("password", MinLength(1)) in Violations(dto, isEmail)
  {
    assert EmailRules[0] == IsEmail;
    assert PasswordRules[0] == IsString && PasswordRules[1] == MinLength(1) && PasswordRules[2] == MaxLength(256);
    if !PasswordAccepted(dto.password) {
      var bad := if dto.password.NonString? then IsString
                 else if |dto.password.s| < 1 then MinLength(1) else MaxLength(256);
      assert Violation("password", bad) in PropertyViolations("password", dto.password, PasswordRules, isEmail);
    }
  }

  /** Every password registration accepts is also accepted at login, since
      4..60 lies within 1..256. */
  lemma RegistrationPasswordPassesLogin(v: Value)
    requires CreateUserDto.PasswordAccepted(v)
    ensures PasswordAccepted(v)
  {
  }
}
