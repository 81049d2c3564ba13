/** The validation decorators the DTO classes use, as the violations a
    validation run reports for one input object. Every decorator of every
    property is checked; the object is accepted when none fails. The
    email-format rule is left abstract as the parameter `isEmail`. */
module ClassValidator {

  /** A property of the request body: a string, or anything else (a missing
      property, a number, an object ...). */
  datatype Value = Str(s: string) | NonString

  datatype Constraint =
    | IsString
    | MinLength(min: nat)
    | MaxLength(max: nat)
    | Length(lo: nat, hi: nat)
    | IsEmail

  datatype Violation = Violation(property: string, constraint: Constraint)

  /** Whether `v` satisfies `c`; every constraint but `IsString` also fails on
      a value that is not a string. */
  predicate Holds(c: Constraint, v: Value, isEmail: string -> bool): (b: bool)
    ensures v.NonString? ==> !b
    ensures b ==> v.Str?
  {
    match c
    case IsString => v.Str?
    case MinLength(min) => v.Str? && min <= |v.s|
    case MaxLength(max) => v.Str? && |v.s| <= max
    case Length(lo, hi) => v.Str? && lo <= |v.s| <= hi
    case IsEmail => v.Str? && isEmail(v.s)
  }

  /** `Length(lo, hi)` is `MinLength(lo)` and `MaxLength(hi)` together. */
  lemma LengthIsMinAndMax(lo: nat, hi: nat, v: Value, isEmail: string -> bool)
    ensures Holds(Length(lo, hi), v, isEmail) <==> Holds(MinLength(lo), v, isEmail) && Holds(MaxLength(hi), v, isEmail)
  {
  }

  /** The violations one property produces under its decorators `cs`. */
  function PropertyViolations(property: string, v: Value, cs: seq<Constraint>, isEmail: string -> bool): (r: set<Violation>)
    ensures forall x :: x in r <==> x.property == property && x.constraint in cs && !Holds(x.constraint, v, isEmail)
    ensures r == {} <==> forall i :: 0 <= i < |cs| ==> Holds(cs[i], v, isEmail)
  {
    var r := set c | c in cs && !Holds(c, v, isEmail) :: Violation(property, c);
    assert (exists i :: 0 <= i < |cs| && !Holds(cs[i], v, isEmail)) ==> r != {} by {
      if i :| 0 <= i < |cs| && !Holds(cs[i], v, isEmail) {
        assert Violation(property, cs[i]) in r;
      }
    }
    r
  }
}
