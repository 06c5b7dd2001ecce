/**
 * The requests the screens issue through the category, product, user and company services.
 * The HTTP client and the services' error translation are not modelled: a screen method
 * reports the calls it issued, in order, and is handed the outcome of each.
 */
module Services {
  import opened Outcomes
  import opened Entities

  /** A `FormData` entry value: a text field or a file. */
  datatype FormValue = TextValue(text: string) | FileValue(file: FileRef)

  datatype FormEntry = FormEntry(key: string, value: FormValue)

  /** The JSON product body built by the register screens (price before `parseFloat`). */
  datatype ProductFields = ProductFields(
    name: string,
    description: string,
    priceText: string,
    categoryId: string,
    companyId: Option<string>)

  /** The company registration body (`CreateCompanyDto`). */
  datatype CompanyForm = CompanyForm(
    name: string,
    address: string,
    phone: string,
    email: string,
    ownerName: string,
    ownerPassword: string)

  datatype ServiceCall =
    | CategoryGet
    | CategoryCreate(name: string)
    | CategoryUpdate(categoryId: Option<string>, name: string)
    | CategoryDelete(categoryId: Option<string>)
    | ProductGet
    | ProductCreate(fields: ProductFields, file: Option<FileRef>)
    | ProductCreateMultipart(body: seq<FormEntry>)
    | ProductUpdate(productId: Option<string>, body: seq<FormEntry>)
    | ProductDelete(productId: Option<string>)
    | UserRegister(userName: string, email: string, password: string, userCompanyId: Option<string>)
    | UserUpdate(userId: string, userName: string, email: string, newPassword: Option<string>)
    | UserAssociate(userId: string, companyId: string)
    | UserLogin(loginEmail: string, loginPassword: string)
    | UserCompaniesOf(subject: Option<string>)
    | CompanyCreate(company: CompanyForm)

  function Keys(body: seq<FormEntry>): (ks: seq<string>)
    ensures |ks| == |body|
    ensures forall i :: 0 <= i < |body| ==> ks[i] == body[i].key
  {
    if body == [] then [] else [body[0].key] + Keys(body[1..])
  }

  /** The value `FormData.get(key)` returns: the first entry under `key`. */
  function Lookup(body: seq<FormEntry>, key: string): (v: Option<FormValue>)
    ensures v.Some? <==> key in Keys(body)
  {
    if body == [] then None
    else if body[0].key == key then Some(body[0].value)
    else Lookup(body[1..], key)
  }

  /**
   * The multipart product body both product editors append field by field: the four text
   * fields, then `companyId` when one is known, then `image` when a file was chosen.
   */
  function ProductMultipart(name: string, description: string, price: string, categoryId: string,
                            companyId: Option<string>, image: Option<FileRef>): seq<FormEntry>
  {
    FixedFields(name, description, price, categoryId)
    + (if companyId.Some? then [FormEntry("companyId", TextValue(companyId.value))] else [])
    + (if image.Some? then [FormEntry("image", FileValue(image.value))] else [])
  }

  lemma {:induction false} KeysAppend(a: seq<FormEntry>, b: seq<FormEntry>)
    ensures Keys(a + b) == Keys(a) + Keys(b)
  {
    if a != [] {
      assert (a + b)[1..] == a[1..] + b;
      KeysAppend(a[1..], b);
    } else {
      assert a + b == b;
    }
  }

  /** Looking a key up in a concatenation finds the first part's entry before the second's. */
  lemma {:induction false} LookupAppend(a: seq<FormEntry>, b: seq<FormEntry>, key: string)
    ensures Lookup(a + b, key) == if key in Keys(a) then Lookup(a, key) else Lookup(b, key)
  {
    if a != [] {
      assert (a + b)[1..] == a[1..] + b;
      LookupAppend(a[1..], b, key);
      assert Keys(a) == [a[0].key] + Keys(a[1..]);
    } else {
      assert a + b == b;
    }
  }

  /** The part of the body that is always present, and the two optional tails. */
  function FixedFields(name: string, description: string, price: string, categoryId: string): seq<FormEntry>
  {
    [FormEntry("name", TextValue(name)), FormEntry("description", TextValue(description)),
     FormEntry("price", TextValue(price)), FormEntry("categoryId", TextValue(categoryId))]
  }

  /**
   * The body's keys come in a fixed order: the four text fields, then `companyId` exactly
   * when a company id is known, then `image` exactly when a file was chosen.
   */
  lemma ProductMultipartKeys(name: string, description: string, price: string, categoryId: string,
                             companyId: Option<string>, image: Option<FileRef>)
    ensures Keys(ProductMultipart(name, description, price, categoryId, companyId, image))
            == ["name", "description", "price", "categoryId"]
               + (if companyId.Some? then ["companyId"] else [])
               + (if image.Some? then ["image"] else [])
  {
    var fixed := FixedFields(name, description, price, categoryId);
    var company := if companyId.Some? then [FormEntry("companyId", TextValue(companyId.value))] else [];
    var file := if image.Some? then [FormEntry("image", FileValue(image.value))] else [];
    assert ProductMultipart(name, description, price, categoryId, companyId, image) == fixed + company + file;
    FixedFieldsKeys(name, description, price, categoryId);
    assert Keys(company) == if companyId.Some? then ["companyId"] else [];
    assert Keys(file) == if image.Some? then ["image"] else [];
    KeysAppend(fixed, company);
    KeysAppend(fixed + company, file);
  }

  lemma LookupCons(e: FormEntry, rest: seq<FormEntry>, key: string)
    ensures Lookup([e] + rest, key) == if e.key == key then Some(e.value) else Lookup(rest, key)
  {
    assert ([e] + rest)[1..] == rest;
  }

  /** Each of the four fixed fields carries the value it was built from. */
  lemma FixedFieldsValues(name: string, description: string, price: string, categoryId: string)
    ensures var fixed := FixedFields(name, description, price, categoryId);
            && Lookup(fixed, "name") == Some(TextValue(name))
            && Lookup(fixed, "description") == Some(TextValue(description))
            && Lookup(fixed, "price") == Some(TextValue(price))
            && Lookup(fixed, "categoryId") == Some(TextValue(categoryId))
  {
    var e0, e1, e2, e3 := FormEntry("name", TextValue(name)), FormEntry("description", TextValue(description)),
                          FormEntry("price", TextValue(price)), FormEntry("categoryId", TextValue(categoryId));
    assert FixedFields(name, description, price, categoryId) == [e0] + ([e1] + ([e2] + [e3]));
    assert |"name"| == 4 && |"description"| == 11 && |"price"| == 5 && |"categoryId"| == 10;
    LookupCons(e0, [e1] + ([e2] + [e3]), "description");
    LookupCons(e0, [e1] + ([e2] + [e3]), "price");
    LookupCons(e1, [e2] + [e3], "price");
    LookupCons(e0, [e1] + ([e2] + [e3]), "categoryId");
    LookupCons(e1, [e2] + [e3], "categoryId");
    LookupCons(e2, [e3], "categoryId");
  }

  /** The fixed part's keys, which include neither optional key. */
  lemma FixedFieldsKeys(name: string, description: string, price: string, categoryId: string)
    ensures Keys(FixedFields(name, description, price, categoryId)) == ["name", "description", "price", "categoryId"]
    ensures "companyId" !in Keys(FixedFields(name, description, price, categoryId))
    ensures "image" !in Keys(FixedFields(name, description, price, categoryId))
  {
    assert |"companyId"| == 9 && |"image"| == 5 && "image"[0] != "price"[0];
  }

  /** Every field of the body carries the value it was built from. */
  lemma ProductMultipartValues(name: string, description: string, price: string, categoryId: string,
                               companyId: Option<string>, image: Option<FileRef>)
    ensures var body := ProductMultipart(name, description, price, categoryId, companyId, image);
            && Lookup(body, "name") == Some(TextValue(name))
            && Lookup(body, "description") == Some(TextValue(description))
            && Lookup(body, "price") == Some(TextValue(price))
            && Lookup(body, "categoryId") == Some(TextValue(categoryId))
            && Lookup(body, "companyId") == (if companyId.Some? then Some(TextValue(companyId.value)) else None)
            && Lookup(body, "image") == (if image.Some? then Some(FileValue(image.value)) else None)
  {
    var fixed := FixedFields(name, description, price, categoryId);
    var company := if companyId.Some? then [FormEntry("companyId", TextValue(companyId.value))] else [];
    var file := if image.Some? then [FormEntry("image", FileValue(image.value))] else [];
    var body := fixed + company + file;
    assert ProductMultipart(name, description, price, categoryId, companyId, image) == body;
    FixedFieldsValues(name, description, price, categoryId);
    FixedFieldsKeys(name, description, price, categoryId);
    var ks := Keys(fixed);
    forall key | key in ks
      ensures Lookup(body, key) == Lookup(fixed, key)
    {
      LookupAppend(fixed + company, file, key);
      LookupAppend(fixed, company, key);
    }
    assert Lookup(body, "companyId") == Lookup(company, "companyId") by {
      LookupAppend(fixed + company, file, "companyId");
      LookupAppend(fixed, company, "companyId");
    }
    assert "image" !in Keys(fixed + company) by {
      KeysAppend(fixed, company);
      assert "image" != "companyId";
    }
    assert Lookup(body, "image") == Lookup(file, "image") by {
      LookupAppend(fixed + company, file, "image");
    }
  }
}
