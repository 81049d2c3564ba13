/** `CreateUserDto` of src/auth/dto/create-user.dto.ts. */
module CreateUserDto {
  import opened ClassValidator

  datatype CreateUserDto = CreateUserDto(name: Value, password: Value, email: Value)

  const NameRules: seq<Constraint> := [IsString, MinLength(4), MaxLength(60)]
  const PasswordRules: seq<Constraint> := [IsString, MinLength(4), MaxLength(60)]
  const EmailRules: seq<Constraint> := [IsEmail]

  /** Every violation the body produces, property by property. */
  function Violations(dto: CreateUserDto, isEmail: string -> bool): (r: set<Violation>)
    ensures forall x :: x in r ==>
        (x.property == "name" && x.constraint in NameRules) ||
        (x.property == "password" && x.constraint in PasswordRules) ||
        (x.property == "email" && x.constraint in EmailRules)
  {
    PropertyViolations("name", dto.name, NameRules, isEmail)
      + PropertyViolations("password", dto.password, PasswordRules, isEmail)
      + PropertyViolations("email", dto.email, EmailRules, isEmail)
  }

  predicate NameAccepted(v: Value)
  {
    v.Str? && 4 <= |v.s| <= 60
  }

  predicate PasswordAccepted(v: Value)
  {
    v.Str? && 4 <= |v.s| <= 60
  }

  /** The decorators of one property accept exactly the strings of length 4
      to 60, both bounds included. */
  lemma {:induction false} LengthRulesMeanBounds(v: Value, isEmail: string -> bool)
    ensures PropertyViolations("name", v, NameRules, isEmail) == {} <==> NameAccepted(v)
    ensures PropertyViolations("password", v, PasswordRules, isEmail) == {} <==> PasswordAccepted(v)
  {
    if !NameAccepted(v) {
      var bad := if v.NonString? then IsString else if |v.s| < 4 then MinLength(4) else MaxLength(60);
      assert bad == NameRules[if bad == IsString then 0 else if bad == MinLength(4) then 1 else 2];
      assert Violation("name", bad) in PropertyViolations("name", v, NameRules, isEmail);
      assert Violation("password", bad) in PropertyViolations("password", v, PasswordRules, isEmail);
    }
  }

  /** The body passes validation exactly when each of its three properties
      passes its own checks; no check looks at another property. */
  lemma {:induction false} ValidIff(dto: CreateUserDto, isEmail: string -> bool)
    ensures Violations(dto, isEmail) == {} <==>
      NameAccepted(dto.name) && PasswordAccepted(dto.password) && dto.email.Str? && isEmail(dto.email.s)
    ensures forall c :: Violation("name", c) in Violations(dto, isEmail) <==> c in NameRules && !Holds(c, dto.name, isEmail)
    ensures forall c :: Violation("password", c) in Violations(dto, isEmail) <==> c in PasswordRules && !Holds(c, dto.password, isEmail)
    ensures forall c :: Violation("email", c) in Violations(dto, isEmail) <==> c == IsEmail && !Holds(c, dto.email, isEmail)
  {
    LengthRulesMeanBounds(dto.name, isEmail);
    LengthRulesMeanBounds(dto.password, isEmail);
    assert PropertyViolations("email", dto.email, EmailRules, isEmail) == {} <==> Holds(IsEmail, dto.email, isEmail) by {
      assert EmailRules[0] == IsEmail;
    }
  }

  /** A value that is not a string fails all three decorators of `name`. */
  lemma NonStringNameFailsEveryRule(dto: CreateUserDto, isEmail: string -> bool)
    requires dto.name.NonString?
    ensures Violation("name", IsString) in Violations(dto, isEmail)
    ensures Violation("name", MinLength(4)) in Violations(dto, isEmail)
    ensures Violation("name", MaxLength(60)) in Violations(dto, isEmail)
  {
  }
}
