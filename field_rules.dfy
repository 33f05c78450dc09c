/** The field-level rules of the validation schemas, as the schema library
    applies them: each field yields at most one issue, the fields are checked
    in declaration order, and a failed parse reports its first issue
    (`result.error.issues[0].message`). The library's default messages are
    those of its version 3. */
module FieldRules {
  import opened Common

  /** Default message when a required field is `undefined`. */
  const RequiredMessage := "Required"
  /** Default message when a string field is `null` (an absent form field). */
  const NullStringMessage := "Expected string, received null"
  /** Default message when no alternative of a union accepts the value. */
  const InvalidInputMessage := "Invalid input"

  /** The outcome of `schema.safeParse(data)`. */
  datatype Parsed<+T> = Valid(data: T) | Invalid(message: string)

  /** The issue `z.string().min(n, message)` raises for one field, if any. */
  function MinLengthIssue(v: FieldValue, n: nat, message: string): (issue: Option<string>)
    ensures issue == None <==> v.Text? && |v.s| >= n
    ensures v.Text? && |v.s| < n ==> issue == Some(message)
    ensures v == Null ==> issue == Some(NullStringMessage)
  {
    match v
    case Undefined => Some(RequiredMessage)
    case Null => Some(NullStringMessage)
    case Text(s) => if |s| >= n then None else Some(message)
  }

  /** The issue `z.string().url(message).optional().or(z.literal(''))` raises
      for one field, if any. The first alternative accepts `undefined` and any
      string the URL predicate accepts; the second accepts exactly the empty
      string; when neither does, a string reports the URL message of the first
      alternative, and `null` (matched by neither) the union's message. */
  function OptionalUrlIssue(v: FieldValue, isUrl: string -> bool, message: string): (issue: Option<string>)
    ensures issue == None <==> v == Undefined || v == Text("") || (v.Text? && isUrl(v.s))
    ensures v.Text? && v.s != "" && !isUrl(v.s) ==> issue == Some(message)
    ensures v == Null ==> issue == Some(InvalidInputMessage)
  {
    match v
    case Undefined => None
    case Null => Some(InvalidInputMessage)
    case Text(s) => if isUrl(s) || s == "" then None else Some(message)
  }

  /** The first issue of a list of per-field outcomes in declaration order. */
  function FirstIssue(issues: seq<Option<string>>): (first: Option<string>)
    ensures first == None <==> forall i :: 0 <= i < |issues| ==> issues[i] == None
    ensures first.Some? ==>
      exists i :: 0 <= i < |issues| && issues[i] == first && forall j :: 0 <= j < i ==> issues[j] == None
  {
    if issues == [] then None
    else if issues[0].Some? then issues[0]
    else
      var rest := FirstIssue(issues[1..]);
      assert rest.Some? ==> exists i :: 0 <= i < |issues| && issues[i] == rest && forall j :: 0 <= j < i ==> issues[j] == None by {
        if rest.Some? {
          var i :| 0 <= i < |issues| - 1 && issues[1..][i] == rest && forall j :: 0 <= j < i ==> issues[1..][j] == None;
          assert issues[i + 1] == rest;
          assert forall j :: 0 <= j < i + 1 ==> issues[j] == None by {
            forall j | 0 <= j < i + 1 ensures issues[j] == None {
              if j > 0 { assert issues[j] == issues[1..][j - 1]; }
            }
          }
        }
      }
      rest
  }
}
