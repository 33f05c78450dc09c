/** The product actions (actions/product.ts) over the product table. The
    mutating actions check the session, validate the name and category id,
    then write the record the raw form fields describe (the corrected
    record: as written the action reads the other columns from the parsed
    data, which has dropped them; `RecordAsWritten` and `UpdateAsWritten`
    model that); a failing store call
    (the `fault` parameter, a missing or taken id, or a stock that is not a
    number) is reported with the action's fixed message and writes nothing.
    New ids and creation times are the store's, parameters here. */
module ProductActions {
  import opened Common
  import opened FieldRules
  import opened Session
  import opened ProductValidation
  import opened JsText
  import opened Listing

  const CreateFailed := "Ürün oluşturulurken bir hata oluştu"
  const UpdateFailed := "Ürün güncellenirken bir hata oluştu"
  const DeleteFailed := "Ürün silinirken bir hata oluştu"

  datatype Product = Product(
    id: string, name: string, description: Option<string>, price: Option<string>,
    imageUrl: Option<string>, stock: Option<int>, categoryId: string, createdAt: int)

  function IdOf(p: Product): string
  {
    p.id
  }

  /** What `stock ? parseInt(stock) : null` hands the store. */
  datatype StockValue = NoStock | Count(n: int) | NotANumber

  /** The stock rule: an absent or empty value is `null`, anything else its
      `parseInt`. */
  function StockRule(v: FieldValue): (s: StockValue)
    ensures !Truthy(v) ==> s == NoStock
    ensures s == NotANumber ==> Truthy(v) && ParseInt(v.s) == None
    ensures Truthy(v) && ParseInt(v.s).Some? ==> s == Count(ParseInt(v.s).value)
  {
    if !Truthy(v) then NoStock
    else match ParseInt(v.s)
      case None => NotANumber
      case Some(n) => Count(n)
  }

  /** A stock written as a string of decimal digits is stored as the number
      they denote. */
  lemma StockOfDigits(digits: string)
    requires digits != [] && AllDigits(digits, 10)
    ensures StockRule(Text(digits)) == Count(DigitsValue(digits, 10))
  {
    ParseDigitsThen(digits, []);
    assert digits + [] == digits;
  }

  /** Round trip: the stock a form shows as `${n}` is stored as `n`. */
  lemma StockRoundTrip(n: nat)
    ensures StockRule(Text(Decimal(n))) == Count(n)
  {
    DecimalRoundTrip(n);
  }

  /** A text column written from a form field: `null` when the field is absent. */
  function Column(v: FieldValue): (c: Option<string>)
    ensures v.Text? <==> c.Some?
    ensures c.Some? ==> c.value == v.s
  {
    if v.Text? then Some(v.s) else None
  }

  /** The record a product form describes: the validated name and category
      id, and the other columns read from the raw form fields. */
  function FormRecord(id: string, input: ProductInput, form: FormData, createdAt: int): (p: Product)
    requires StockRule(FormGet(form, "stock")) != NotANumber
    ensures p.id == id && p.createdAt == createdAt
    ensures p.name == input.name && p.categoryId == input.categoryId
    ensures p.description.Some? <==> "description" in form
    ensures p.description.Some? ==> p.description.value == form["description"]
    ensures p.price.Some? <==> "price" in form
    ensures p.price.Some? ==> p.price.value == form["price"]
    ensures p.imageUrl.Some? <==> "imageUrl" in form
    ensures p.imageUrl.Some? ==> p.imageUrl.value == form["imageUrl"]
    ensures p.stock.None? <==> !Truthy(FormGet(form, "stock"))
    ensures p.stock.Some? ==> Some(p.stock.value) == ParseInt(form["stock"])
  {
    Product(id, input.name, Column(FormGet(form, "description")),
            Column(FormGet(form, "price")), Column(FormGet(form, "imageUrl")),
            match StockRule(FormGet(form, "stock")) case Count(n) => Some(n) case _ => None,
            input.categoryId, createdAt)
  }

  /** The stock the action hands the store as written: the rule applied to
      the parsed data, which has no `stock` field. */
  function StockAsWritten(parsed: ProductInput): StockValue
  {
    StockRule(ParsedField(parsed, "stock"))
  }

  /** As written, every product is stored without a stock, whatever the form says. */
  lemma StockDroppedAsWritten(parsed: ProductInput)
    ensures StockAsWritten(parsed) == NoStock
  {
  }

  /** A valid form whose stock is the decimal text of n (such as "5"): the
      rule on the raw field gives n, the parsed data gives none. */
  lemma StockFindingWitness(name: string, categoryId: string, n: nat)
    requires name != "" && categoryId != ""
    ensures var form := map["name" := name, "categoryId" := categoryId, "stock" := Decimal(n)];
      && ProductSchema(FormGet(form, "name"), FormGet(form, "categoryId")) == Valid(ProductInput(name, categoryId))
      && StockAsWritten(ProductInput(name, categoryId)) == NoStock
      && StockRule(FormGet(form, "stock")) == Count(n)
  {
    var form := map["name" := name, "categoryId" := categoryId, "stock" := Decimal(n)];
    assert FormGet(form, "name") == Text(name);
    assert FormGet(form, "categoryId") == Text(categoryId);
    assert FormGet(form, "stock") == Text(Decimal(n));
    StockRoundTrip(n);
  }

  /** The record `createProduct` sends as written: every column is read from
      the parsed data, which holds only the name and the category id, so the
      description, price and image columns are not sent (`None` here) and
      the stock is `null`. */
  function RecordAsWritten(id: string, parsed: ProductInput, createdAt: int): Product
  {
    Product(id, parsed.name, Column(ParsedField(parsed, "description")),
            Column(ParsedField(parsed, "price")), Column(ParsedField(parsed, "imageUrl")),
            match StockAsWritten(parsed) case Count(n) => Some(n) case _ => None,
            parsed.categoryId, createdAt)
  }

  /** As written, the record created agrees with the one the form describes
      only for a form with no description, price or image field and no stock. */
  lemma CreateAsWrittenDiffers(id: string, input: ProductInput, form: FormData, createdAt: int)
    requires StockRule(FormGet(form, "stock")) != NotANumber
    ensures RecordAsWritten(id, input, createdAt) == FormRecord(id, input, form, createdAt) <==>
      "description" !in form && "price" !in form && "imageUrl" !in form && !Truthy(FormGet(form, "stock"))
  {
    StockDroppedAsWritten(input);
    var p := FormRecord(id, input, form, createdAt);
    if "description" in form { assert p.description == Some(form["description"]); }
    if "price" in form { assert p.price == Some(form["price"]); }
    if "imageUrl" in form { assert p.imageUrl == Some(form["imageUrl"]); }
  }

  /** A column an update sends: the store leaves a column whose value is
      `undefined` as it was. */
  function Kept(current: Option<string>, v: FieldValue): Option<string>
  {
    if v.Undefined? then current else Column(v)
  }

  /** The record `updateProduct` leaves as written: name and category id from
      the parsed data, the description, price and image columns unchanged
      (their values are `undefined`), and the stock cleared to `null`. */
  function UpdateAsWritten(current: Product, parsed: ProductInput): Product
  {
    current.(name := parsed.name, categoryId := parsed.categoryId,
             description := Kept(current.description, ParsedField(parsed, "description")),
             price := Kept(current.price, ParsedField(parsed, "price")),
             imageUrl := Kept(current.imageUrl, ParsedField(parsed, "imageUrl")),
             stock := match StockAsWritten(parsed) case Count(n) => Some(n) case _ => None)
  }

  lemma UpdateAsWrittenKeepsColumns(current: Product, parsed: ProductInput)
    ensures var p := UpdateAsWritten(current, parsed);
      && p.id == current.id && p.createdAt == current.createdAt
      && p.name == parsed.name && p.categoryId == parsed.categoryId
      && p.description == current.description && p.price == current.price
      && p.imageUrl == current.imageUrl && p.stock == None
  {
    StockDroppedAsWritten(parsed);
  }

  /** As written, an update agrees with the record the form describes only
      when the form's description, price and image columns already match the
      stored ones and the form has no stock. */
  lemma UpdateAsWrittenDiffers(current: Product, input: ProductInput, form: FormData)
    requires StockRule(FormGet(form, "stock")) != NotANumber
    ensures UpdateAsWritten(current, input) == FormRecord(current.id, input, form, current.createdAt) <==>
      && Column(FormGet(form, "description")) == current.description
      && Column(FormGet(form, "price")) == current.price
      && Column(FormGet(form, "imageUrl")) == current.imageUrl
      && !Truthy(FormGet(form, "stock"))
  {
    UpdateAsWrittenKeepsColumns(current, input);
  }

  /** Newest first. */
  ghost predicate NewestFirst(s: seq<Product>)
  {
    forall i, j :: 0 <= i < j < |s| ==> s[i].createdAt >= s[j].createdAt
  }

  /** Where `p` goes in a newest-first list: after every record created no
      earlier than it. */
  function InsertionPoint(s: seq<Product>, p: Product): (k: nat)
    ensures k <= |s|
    ensures forall i :: 0 <= i < k ==> s[i].createdAt >= p.createdAt
    ensures k < |s| ==> s[k].createdAt < p.createdAt
  {
    if s == [] || s[0].createdAt < p.createdAt then 0 else 1 + InsertionPoint(s[1..], p)
  }

  lemma InsertKeepsNewestFirst(s: seq<Product>, p: Product)
    requires NewestFirst(s)
    ensures var k := InsertionPoint(s, p); NewestFirst(s[..k] + [p] + s[k..])
  {
    var k := InsertionPoint(s, p);
    var t := s[..k] + [p] + s[k..];
    forall i, j | 0 <= i < j < |t| ensures t[i].createdAt >= t[j].createdAt {
      assert t[i] == if i < k then s[i] else if i == k then p else s[i - 1];
      assert t[j] == if j < k then s[j] else if j == k then p else s[j - 1];
    }
  }

  /** `categoryId ? { categoryId } : undefined`: no filter for an absent or
      empty category id. */
  predicate InCategory(p: Product, categoryId: FieldValue)
  {
    !Truthy(categoryId) || p.categoryId == categoryId.s
  }

  /** The ids of the products in the category. */
  function SelectedIds(rows: map<string, Product>, categoryId: FieldValue): set<string>
  {
    set id | id in rows && InCategory(rows[id], categoryId)
  }

  /** A listing of the selected ids holds exactly the category's products, each once. */
  lemma ListsSelected(r: seq<Product>, rows: map<string, Product>, categoryId: FieldValue)
    requires ListsOnce(r, rows, SelectedIds(rows, categoryId), IdOf)
    ensures forall i :: 0 <= i < |r| ==>
      r[i].id in rows && rows[r[i].id] == r[i] && InCategory(r[i], categoryId)
    ensures forall id :: id in rows && InCategory(rows[id], categoryId) ==> rows[id] in r
    ensures forall i, j :: 0 <= i < j < |r| ==> r[i].id != r[j].id
  {
    forall i | 0 <= i < |r| ensures r[i].id in rows && rows[r[i].id] == r[i] && InCategory(r[i], categoryId) {
      assert IdOf(r[i]) in SelectedIds(rows, categoryId);
    }
    forall id | id in rows && InCategory(rows[id], categoryId) ensures rows[id] in r {
      assert id in SelectedIds(rows, categoryId);
    }
    forall i, j | 0 <= i < j < |r| ensures r[i].id != r[j].id {
      assert IdOf(r[i]) != IdOf(r[j]);
    }
  }

  class ProductTable {
    var rows: map<string, Product>

    /** Every record is stored under its own id. */
    ghost predicate Valid()
      reads this
    {
      forall id :: id in rows ==> rows[id].id == id
    }

    constructor ()
      ensures Valid() && rows == map[]
    {
      rows := map[];
    }

    /** `createProduct` */
    method Create(jar: CookieJar, codec: TokenCodec, form: FormData, newId: string, now: int, fault: bool)
      returns (r: ActionResult)
      requires Valid()
      modifies this
      ensures Valid()
      ensures GetSession(jar, codec) == None ==> r == Failure(Unauthorized)
      ensures GetSession(jar, codec).Some?
              && ProductSchema(FormGet(form, "name"), FormGet(form, "categoryId")).Invalid? ==>
        r == Failure(ProductSchema(FormGet(form, "name"), FormGet(form, "categoryId")).message)
      ensures GetSession(jar, codec).Some?
              && ProductSchema(FormGet(form, "name"), FormGet(form, "categoryId")).Valid? ==>
        r == (if fault || newId in old(rows) || StockRule(FormGet(form, "stock")) == NotANumber
              then Failure(CreateFailed) else Success)
      ensures r == Success ==> StockRule(FormGet(form, "stock")) != NotANumber
      ensures r == Success ==> rows == old(rows)[newId := FormRecord(newId, ProductInput(form["name"], form["categoryId"]), form, now)]
      ensures r != Success ==> rows == old(rows)
    {
      var session := GetSession(jar, codec);
      if session == None {
        return Failure(Unauthorized);
      }
      var result := ProductSchema(FormGet(form, "name"), FormGet(form, "categoryId"));
      if result.Invalid? {
        return Failure(result.message);
      }
      var stock := StockRule(FormGet(form, "stock"));
      if fault || newId in rows || stock == NotANumber {
        return Failure(CreateFailed);
      }
      rows := rows[newId := FormRecord(newId, result.data, form, now)];
      r := Success;
    }

    /** `updateProduct`: only the record with that id changes; it keeps its
      id and creation time and takes every other column from the form. */
    method Update(jar: CookieJar, codec: TokenCodec, id: string, form: FormData, fault: bool)
      returns (r: ActionResult)
      requires Valid()
      modifies this
      ensures Valid()
      ensures GetSession(jar, codec) == None ==> r == Failure(Unauthorized)
      ensures GetSession(jar, codec).Some?
              && ProductSchema(FormGet(form, "name"), FormGet(form, "categoryId")).Invalid? ==>
        r == Failure(ProductSchema(FormGet(form, "name"), FormGet(form, "categoryId")).message)
      ensures GetSession(jar, codec).Some?
              && ProductSchema(FormGet(form, "name"), FormGet(form, "categoryId")).Valid? ==>
        r == (if fault || id !in old(rows) || StockRule(FormGet(form, "stock")) == NotANumber
              then Failure(UpdateFailed) else Success)
      ensures r == Success ==> StockRule(FormGet(form, "stock")) != NotANumber && id in old(rows)
      ensures r == Success ==> rows == old(rows)[id := FormRecord(id, ProductInput(form["name"], form["categoryId"]), form, old(rows)[id].createdAt)]
      ensures r != Success ==> rows == old(rows)
    {
      var session := GetSession(jar, codec);
      if session == None {
        return Failure(Unauthorized);
      }
      var result := ProductSchema(FormGet(form, "name"), FormGet(form, "categoryId"));
      if result.Invalid? {
        return Failure(result.message);
      }
      var stock := StockRule(FormGet(form, "stock"));
      if fault || id !in rows || stock == NotANumber {
        return Failure(UpdateFailed);
      }
      rows := rows[id := FormRecord(id, result.data, form, rows[id].createdAt)];
      r := Success;
    }

    /** `deleteProduct`: only the record with that id goes. */
    method Delete(jar: CookieJar, codec: TokenCodec, id: string, fault: bool) returns (r: ActionResult)
      requires Valid()
      modifies this
      ensures Valid()
      ensures GetSession(jar, codec) == None ==> r == Failure(Unauthorized)
      ensures GetSession(jar, codec).Some? ==>
        r == (if fault || id !in old(rows) then Failure(DeleteFailed) else Success)
      ensures r == Success ==> rows == old(rows) - {id}
      ensures r != Success ==> rows == old(rows)
    {
      var session := GetSession(jar, codec);
      if session == None {
        return Failure(Unauthorized);
      }
      if fault || id !in rows {
        return Failure(DeleteFailed);
      }
      rows := rows - {id};
      r := Success;
    }

    /** `getProducts(categoryId)`: the products of that category (all of
      them without one), each once, newest first; the empty list when the
      store fails. */
    method GetProducts(categoryId: FieldValue, fault: bool) returns (r: seq<Product>)
      requires Valid()
      ensures fault ==> r == []
      ensures forall i :: 0 <= i < |r| ==>
        r[i].id in rows && rows[r[i].id] == r[i] && InCategory(r[i], categoryId)
      ensures !fault ==> forall id :: id in rows && InCategory(rows[id], categoryId) ==> rows[id] in r
      ensures forall i, j :: 0 <= i < j < |r| ==> r[i].id != r[j].id
      ensures NewestFirst(r)
    {
      r := [];
      if fault {
        return;
      }
      var table := rows;
      ghost var selected := SelectedIds(table, categoryId);
      var pending := SelectedIds(table, categoryId);
      while pending != {}
        invariant pending <= selected
        invariant ListsOnce(r, table, selected - pending, IdOf)
        invariant NewestFirst(r)
        decreases pending
      {
        var id :| id in pending;
        var k := InsertionPoint(r, table[id]);
        InsertKeepsNewestFirst(r, table[id]);
        InsertListsOnce(r, table, selected - pending, IdOf, id, k);
        assert selected - pending + {id} == selected - (pending - {id});
        r := r[..k] + [table[id]] + r[k..];
        pending := pending - {id};
      }
      assert selected - pending == selected;
      ListsSelected(r, table, categoryId);
    }

    /** `getProduct(id)`: the record with that id, or none when there is
      none or the store fails. */
    method GetProduct(id: string, fault: bool) returns (r: Option<Product>)
      requires Valid()
      ensures r.Some? <==> !fault && id in rows
      ensures r.Some? ==> r.value == rows[id] && r.value.id == id
    {
      if fault || id !in rows {
        return None;
      }
      r := Some(rows[id]);
    }
  }
}
