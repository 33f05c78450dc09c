/** `categorySchema`: a category form is valid when its name has at least
    one character. Only the name is read; every other field is dropped. */
module CategoryValidation {
  import opened Common
  import opened FieldRules

  const NameRequired := "Kategori adı gereklidir"

  /** The parsed category form. */
  datatype CategoryInput = CategoryInput(name: string)

  function CategorySchema(name: FieldValue): (r: Parsed<CategoryInput>)
    ensures r.Valid? <==> name.Text? && |name.s| >= 1
    ensures r.Valid? ==> r.data == CategoryInput(name.s)
    ensures name == Text("") ==> r == Invalid(NameRequired)
    ensures name == Null ==> r == Invalid(NullStringMessage)
  {
    match FirstIssue([MinLengthIssue(name, 1, NameRequired)])
    case Some(m) => Invalid(m)
    case None => Valid(CategoryInput(name.s))
  }

  /** The length check does not trim: a name made only of spaces is accepted. */
  lemma BlankNameAccepted(n: nat)
    requires n >= 1
    ensures CategorySchema(Text(seq(n, _ => ' '))).Valid?
  {
  }
}
