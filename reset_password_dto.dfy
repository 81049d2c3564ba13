/** `RequestPasswordEmailDto` and `ResetPasswordDto` of
    src/auth/dto/reset-password.dto.ts. */
module ResetPasswordDto {
  import opened ClassValidator
  import CreateUserDto

  datatype RequestPasswordEmailDto = RequestPasswordEmailDto(email: Value)

  datatype ResetPasswordDto = ResetPasswordDto(newPassword: Value, token: Value)

  const EmailRules: seq<Constraint> := [IsEmail]
  const NewPasswordRules: seq<Constraint> := [IsString, Length(4, 60)]
  const TokenRules: seq<Constraint> := [IsString]

  function RequestViolations(dto: RequestPasswordEmailDto, isEmail: string -> bool): (r: set<Violation>)
    ensures forall x :: x in r ==> x == Violation("email", IsEmail)
  {
    PropertyViolations("email", dto.email, EmailRules, isEmail)
  }

  function ResetViolations(dto: ResetPasswordDto, isEmail: string -> bool): (r: set<Violation>)
    ensures forall x :: x in r ==>
        (x.property == "newPassword" && x.constraint in NewPasswordRules) ||
        (x.property == "token" && x.constraint in TokenRules)
  {
    PropertyViolations("newPassword", dto.newPassword, NewPasswordRules, isEmail)
      + PropertyViolations("token", dto.token, TokenRules, isEmail)
  }

  /** The request body passes exactly when its email passes `IsEmail`. */
  lemma {:induction false} RequestValidIff(dto: RequestPasswordEmailDto, isEmail: string -> bool)
    ensures RequestViolations(dto, isEmail) == {} <==> dto.email.Str? && isEmail(dto.email.s)
  {
    assert EmailRules[0] == IsEmail;
  }

  /** The reset body passes exactly when the new password has length 4 to 60
      and the token is a string, of any length, the empty string included. */
  lemma {:induction false} ResetValidIff(dto: ResetPasswordDto, isEmail: string -> bool)
    ensures ResetViolations(dto, isEmail) == {} <==>
      dto.newPassword.Str? && 4 <= |dto.newPassword.s| <= 60 && dto.token.Str?
  {
    assert NewPasswordRules[0] == IsString && NewPasswordRules[1] == Length(4, 60);
    assert TokenRules[0] == IsString;
  }

  /** The bounds on the new password are those registration applies to the
      password. */
  lemma {:induction false} NewPasswordBoundsMatchRegistration(v: Value, isEmail: string -> bool)
    ensures PropertyViolations("newPassword", v, NewPasswordRules, isEmail) == {} <==> CreateUserDto.PasswordAccepted(v)
  {
    assert NewPasswordRules[0] == IsString && NewPasswordRules[1] == Length(4, 60);
  }
}
