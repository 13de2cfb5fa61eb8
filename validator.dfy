/**
 * The request validator (services/product-service/internal/infrastructure/validator/validator.go):
 * an object that accumulates field errors in the order the checks fail.
 *
 * `uuid.Parse` and the text `fmt`'s `%f` verb prints for a number (`formatFloat`) are parameters.
 */
module Validator {
  import opened Wrappers
  import opened Domain
  import Strings

  datatype ValidationError = ValidationError(field: string, message: string)

  /** The messages of `errs`, in order. */
  function Messages(errs: seq<ValidationError>): (m: seq<string>)
    ensures |m| == |errs| && forall i | 0 <= i < |errs| :: m[i] == errs[i].message
  {
    seq(|errs|, i requires 0 <= i < |errs| => errs[i].message)
  }

  class Validator {
    var errors: seq<ValidationError>

    /** `New`: no errors yet. */
    constructor ()
      ensures errors == []
    {
      errors := [];
    }

    /** `Valid`: no error has been recorded. */
    predicate Valid()
      reads this
      ensures Valid() <==> Messages(errors) == []
    {
      |errors| == 0
    }

    /** Appends exactly one entry; the earlier ones stay as they were. */
    method AddError(field: string, message: string)
      modifies this
      ensures errors == old(errors) + [ValidationError(field, message)]
    {
      errors := errors + [ValidationError(field, message)];
    }

    /** Adds `message` for `field` exactly when `condition` is false. */
    method Check(condition: bool, field: string, message: string)
      modifies this
      ensures errors == old(errors) + (if condition then [] else [ValidationError(field, message)])
    {
      if !condition {
        AddError(field, message);
      }
    }

    /** Adds "<field> is required" exactly when `value` is empty. */
    method Required(field: string, value: string)
      modifies this
      ensures errors == old(errors) + (if value == "" then [ValidationError(field, field + " is required")] else [])
    {
      if value == "" {
        AddError(field, field + " is required");
      }
    }

    /** Adds "<field> must be greater than <min>" exactly when `value < min`. */
    method MinValue(field: string, value: real, min: real, formatFloat: real -> string)
      modifies this
      ensures errors == old(errors) + (if value < min then [MinValueError(field, min, formatFloat)] else [])
    {
      if value < min {
        AddError(field, field + " must be greater than " + formatFloat(min));
      }
    }

    /**
     * `ValidUUID`: an empty value is "required" and an unparsable one "not a valid uuid", both
     * yielding (Nil, false); a parsable value yields its UUID and true and adds no error.
     */
    method ValidUUID(field: string, value: string, parse: string -> Option<UUID>) returns (id: UUID, ok: bool)
      modifies this
      ensures value == "" ==>
                errors == old(errors) + [ValidationError(field, field + " is required")] && id == Nil && !ok
      ensures value != "" && parse(value).None? ==>
                errors == old(errors) + [ValidationError(field, field + " is not a valid uuid")] && id == Nil && !ok
      ensures value != "" && parse(value).Some? ==>
                errors == old(errors) && id == parse(value).value && ok
    {
      if value == "" {
        AddError(field, field + " is required");
        return Nil, false;
      }
      var parsed := parse(value);
      if parsed.None? {
        AddError(field, field + " is not a valid uuid");
        return Nil, false;
      }
      return parsed.value, true;
    }

    /** `ErrorMessage`: the messages in the order they were added, separated by ", ". */
    method ErrorMessage() returns (msg: string)
      ensures msg == Strings.Join(Messages(errors), ", ")
    {
      var errorMessages := new string[|errors|];
      for i := 0 to |errors|
        invariant forall k | 0 <= k < i :: errorMessages[k] == errors[k].message
      {
        errorMessages[i] := errors[i].message;
      }
      assert errorMessages[..] == Messages(errors);
      msg := Strings.Join(errorMessages[..], ", ");
    }
  }

  /** The entry `MinValue` adds. */
  function MinValueError(field: string, min: real, formatFloat: real -> string): ValidationError {
    ValidationError(field, field + " must be greater than " + formatFloat(min))
  }
}
