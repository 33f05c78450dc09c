/** The category actions (actions/category.ts) over the category table.
    Each mutating action checks the session, then validates the form, then
    makes one store call; a store call that fails (the `fault` parameter, or
    a missing or taken id) is reported with that action's fixed message and
    writes nothing. The id of a new record is the store's, a parameter. */
module CategoryActions {
  import opened Common
  import opened FieldRules
  import opened Session
  import opened CategoryValidation
  import opened Collation
  import opened Listing

  const CreateFailed := "Kategori oluşturulurken bir hata oluştu"
  const UpdateFailed := "Kategori güncellenirken bir hata oluştu"
  const DeleteFailed := "Kategori silinirken bir hata oluştu"

  datatype Category = Category(id: string, name: string)

  /** Ascending by name. */
  ghost predicate SortedByName(s: seq<Category>)
  {
    forall i, j :: 0 <= i < j < |s| ==> TextLeq(s[i].name, s[j].name)
  }

  /** Where `c` goes in a list sorted by name: after every record whose name
      sorts no later than its own. */
  function InsertionPoint(s: seq<Category>, c: Category): (k: nat)
    ensures k <= |s|
    ensures forall i :: 0 <= i < k ==> TextLeq(s[i].name, c.name)
    ensures k < |s| ==> !TextLeq(s[k].name, c.name)
  {
    if s == [] || !TextLeq(s[0].name, c.name) then 0 else 1 + InsertionPoint(s[1..], c)
  }

  lemma InsertKeepsSorted(s: seq<Category>, c: Category)
    requires SortedByName(s)
    ensures var k := InsertionPoint(s, c); SortedByName(s[..k] + [c] + s[k..])
  {
    var k := InsertionPoint(s, c);
    var t := s[..k] + [c] + s[k..];
    if k < |s| { TextLeqTotal(s[k].name, c.name); }
    forall i, j | 0 <= i < j < |t| ensures TextLeq(t[i].name, t[j].name) {
      if j == k {
      } else if i == k {
        assert t[j] == s[j - 1];
        if j - 1 > k { TextLeqTransitive(c.name, s[k].name, s[j - 1].name); }
      } else {
        assert t[i] == if i < k then s[i] else s[i - 1];
        assert t[j] == if j < k then s[j] else s[j - 1];
      }
    }
  }

  function IdOf(c: Category): string
  {
    c.id
  }

  class CategoryTable {
    var rows: map<string, Category>

    /** Every record is stored under its own id. */
    ghost predicate Valid()
      reads this
    {
      forall id :: id in rows ==> rows[id].id == id
    }

    constructor ()
      ensures Valid() && rows == map[]
    {
      rows := map[];
    }

    /** `createCategory` */
    method Create(jar: CookieJar, codec: TokenCodec, form: FormData, newId: string, fault: bool)
      returns (r: ActionResult)
      requires Valid()
      modifies this
      ensures Valid()
      ensures GetSession(jar, codec) == None ==> r == Failure(Unauthorized)
      ensures GetSession(jar, codec).Some? && CategorySchema(FormGet(form, "name")).Invalid? ==>
        r == Failure(CategorySchema(FormGet(form, "name")).message)
      ensures GetSession(jar, codec).Some? && CategorySchema(FormGet(form, "name")).Valid? ==>
        r == (if fault || newId in old(rows) then Failure(CreateFailed) else Success)
      ensures r == Success ==> rows == old(rows)[newId := Category(newId, form["name"])]
      ensures r != Success ==> rows == old(rows)
    {
      var session := GetSession(jar, codec);
      if session == None {
        return Failure(Unauthorized);
      }
      var result := CategorySchema(FormGet(form, "name"));
      if result.Invalid? {
        return Failure(result.message);
      }
      if fault || newId in rows {
        return Failure(CreateFailed);
      }
      rows := rows[newId := Category(newId, result.data.name)];
      r := Success;
    }

    /** `updateCategory`: only the name of the record with that id changes. */
    method Update(jar: CookieJar, codec: TokenCodec, id: string, form: FormData, fault: bool)
      returns (r: ActionResult)
      requires Valid()
      modifies this
      ensures Valid()
      ensures GetSession(jar, codec) == None ==> r == Failure(Unauthorized)
      ensures GetSession(jar, codec).Some? && CategorySchema(FormGet(form, "name")).Invalid? ==>
        r == Failure(CategorySchema(FormGet(form, "name")).message)
      ensures GetSession(jar, codec).Some? && CategorySchema(FormGet(form, "name")).Valid? ==>
        r == (if fault || id !in old(rows) then Failure(UpdateFailed) else Success)
      ensures r == Success ==> rows == old(rows)[id := old(rows)[id].(name := form["name"])]
      ensures r != Success ==> rows == old(rows)
    {
      var session := GetSession(jar, codec);
      if session == None {
        return Failure(Unauthorized);
      }
      var result := CategorySchema(FormGet(form, "name"));
      if result.Invalid? {
        return Failure(result.message);
      }
      if fault || id !in rows {
        return Failure(UpdateFailed);
      }
      rows := rows[id := rows[id].(name := result.data.name)];
      r := Success;
    }

    /** `deleteCategory`: only the record with that id goes. */
    method Delete(jar: CookieJar, codec: TokenCodec, id: string, fault: bool) returns (r: ActionResult)
      requires Valid()
      modifies this
      ensures Valid()
      ensures GetSession(jar, codec) == None ==> r == Failure(Unauthorized)
      ensures GetSession(jar, codec).Some? ==>
        r == (if fault || id !in old(rows) then Failure(DeleteFailed) else Success)
      ensures r == Success ==> rows == old(rows) - {id}
      ensures r != Success ==> rows == old(rows)
    {
      var session := GetSession(jar, codec);
      if session == None {
        return Failure(Unauthorized);
      }
      if fault || id !in rows {
        return Failure(DeleteFailed);
      }
      rows := rows - {id};
      r := Success;
    }

    /** `getCategories`: every category once, ascending by name; the empty
      list when the store fails. */
    method GetCategories(fault: bool) returns (r: seq<Category>)
      requires Valid()
      ensures fault ==> r == []
      ensures !fault ==> forall i :: 0 <= i < |r| ==> r[i].id in rows && rows[r[i].id] == r[i]
      ensures !fault ==> forall id :: id in rows ==> rows[id] in r
      ensures forall i, j :: 0 <= i < j < |r| ==> r[i].id != r[j].id
      ensures SortedByName(r)
    {
      r := [];
      if fault {
        return;
      }
      var pending := rows.Keys;
      while pending != {}
        invariant pending <= rows.Keys
        invariant ListsOnce(r, rows, rows.Keys - pending, IdOf)
        invariant SortedByName(r)
        decreases pending
      {
        var id :| id in pending;
        var k := InsertionPoint(r, rows[id]);
        InsertKeepsSorted(r, rows[id]);
        InsertListsOnce(r, rows, rows.Keys - pending, IdOf, id, k);
        assert rows.Keys - pending + {id} == rows.Keys - (pending - {id});
        r := r[..k] + [rows[id]] + r[k..];
        pending := pending - {id};
      }
    }
  }
}
