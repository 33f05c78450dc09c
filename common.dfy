/** Values shared by every module of the model: optional values, the
    JavaScript values a server action reads out of a submitted form, and
    the result an admin action reports back to its form. */
module Common {

  datatype Option<+T> = None | Some(value: T)

  /** What a JavaScript property read or `FormData.get(name)` yields:
      `undefined`, `null` or a string. */
  datatype FieldValue = Undefined | Null | Text(s: string)

  /** JavaScript truthiness of a FieldValue: only a non-empty string is truthy. */
  predicate Truthy(v: FieldValue)
  {
    v.Text? && v.s != ""
  }

  /** The text fields of a submitted form; a name that is not a key was not sent. */
  type FormData = map<string, string>

  /** `formData.get(name) as string`: the submitted text, or `null` when the
      form has no such field. */
  function FormGet(form: FormData, name: string): FieldValue
  {
    if name in form then Text(form[name]) else Null
  }

  /** `{ success: true }` or `{ error: message }`, as every admin action returns. */
  datatype ActionResult = Success | Failure(message: string)

  /** The message of the per-action session guard. */
  const Unauthorized := "Yetkisiz erişim"
}
