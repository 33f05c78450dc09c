/** `productSchema`: a product form is valid when its name and its category
    id are non-empty. These are the only two fields the schema declares, so
    they are the only two its parsed data carries. */
module ProductValidation {
  import opened Common
  import opened FieldRules

  const NameRequired := "Ürün adı gereklidir"
  const CategoryRequired := "Kategori seçimi gereklidir"

  /** The parsed product form: exactly the declared fields. */
  datatype ProductInput = ProductInput(name: string, categoryId: string)

  function ProductSchema(name: FieldValue, categoryId: FieldValue): (r: Parsed<ProductInput>)
    ensures r.Valid? <==> name.Text? && name.s != "" && categoryId.Text? && categoryId.s != ""
    ensures r.Valid? ==> r.data == ProductInput(name.s, categoryId.s)
    ensures name == Text("") ==> r == Invalid(NameRequired)
    ensures name.Text? && name.s != "" && categoryId == Text("") ==> r == Invalid(CategoryRequired)
    ensures name == Null ==> r == Invalid(NullStringMessage)
    ensures name.Text? && name.s != "" && categoryId == Null ==> r == Invalid(NullStringMessage)
  {
    var issues := [MinLengthIssue(name, 1, NameRequired), MinLengthIssue(categoryId, 1, CategoryRequired)];
    match FirstIssue(issues)
    case Some(m) => Invalid(m)
    case None =>
      assert issues[0] == None && issues[1] == None;
      Valid(ProductInput(name.s, categoryId.s))
  }

  /** A field of the parsed data read by key; every undeclared key reads `undefined`. */
  function ParsedField(p: ProductInput, key: string): (v: FieldValue)
    ensures key != "name" && key != "categoryId" ==> v == Undefined
  {
    if key == "name" then Text(p.name)
    else if key == "categoryId" then Text(p.categoryId)
    else Undefined
  }
}
