/**
 * The product form schema: a zod object with a required name, any price, a description of
 * at least twenty characters, an optional image name and a required category id. Lengths
 * are counted in UTF-16 code units, as JavaScript strings count them.
 */
module FormSchema {
  import opened Outcomes
  import opened Text

  const NameMessage: string := "Campo nome é obrigatorio e deve conter mais que 10 caracteres"
  const DescriptionMessage: string := "Campo descrição precia ter no minimo 20 caracteres obrigatorio"
  const CategoryMessage: string := "Campo categoria é obrigatorio"

  const NameMin: nat := 1
  const DescriptionMin: nat := 20
  const CategoryMin: nat := 1

  /** A JavaScript value as the schema sees it; a missing key reads as `JsUndefined`. */
  datatype JsValue =
    | JsString(s: string)
    | JsNumber(n: real)
    | JsBoolean(b: bool)
    | JsNull
    | JsUndefined
    | JsArray(items: seq<JsValue>)
    | JsObject(fields: map<string, JsValue>)

  datatype IssueCode = InvalidType(expected: string) | TooSmall(minimum: nat, message: string)

  datatype Issue = Issue(path: seq<string>, code: IssueCode)

  /** The parsed product: unknown keys are dropped, `price` is passed through untouched. */
  datatype ProductSchema = ProductSchema(
    name: string,
    price: JsValue,
    description: string,
    image: Option<string>,
    categoryId: string)

  datatype ParseResult = Success(data: ProductSchema) | Failure(issues: seq<Issue>)

  function Field(fields: map<string, JsValue>, key: string): JsValue
  {
    if key in fields then fields[key] else JsUndefined
  }

  /** `z.string().min(minimum, { message })` applied to one key: at most one issue. */
  function StringIssues(key: string, v: JsValue, minimum: nat, message: string): (r: seq<Issue>)
    ensures |r| <= 1
    ensures r == [] <==> v.JsString? && Utf16Length(v.s) >= minimum
    ensures forall i :: 0 <= i < |r| ==> r[i].path == [key]
    ensures r != [] && v.JsString? ==> r[0].code == TooSmall(minimum, message)
  {
    if !v.JsString? then [Issue([key], InvalidType("string"))]
    else if Utf16Length(v.s) < minimum then [Issue([key], TooSmall(minimum, message))]
    else []
  }

  /** `z.string().optional()`: undefined or a string. */
  function OptionalStringIssues(key: string, v: JsValue): (r: seq<Issue>)
    ensures r == [] <==> v.JsUndefined? || v.JsString?
    ensures forall i :: 0 <= i < |r| ==> r[i].path == [key] && r[i].code == InvalidType("string")
  {
    if v.JsUndefined? || v.JsString? then [] else [Issue([key], InvalidType("string"))]
  }

  /**
   * An optional string is checked like a required string of minimum length zero, except
   * that `undefined` passes.
   */
  lemma OptionalIsStringOrUndefined(key: string, v: JsValue, message: string)
    ensures OptionalStringIssues(key, v) == (if v.JsUndefined? then [] else StringIssues(key, v, 0, message))
  {
  }

  /** Every issue of the object, in the order of the schema's keys; `price` (`z.any()`) never adds one. */
  function ObjectIssues(fields: map<string, JsValue>): seq<Issue>
  {
    StringIssues("name", Field(fields, "name"), NameMin, NameMessage)
    + StringIssues("description", Field(fields, "description"), DescriptionMin, DescriptionMessage)
    + OptionalStringIssues("image", Field(fields, "image"))
    + StringIssues("categoryId", Field(fields, "categoryId"), CategoryMin, CategoryMessage)
  }

  /** `productFormSchema.safeParse(input)`. */
  function SafeParse(input: JsValue): ParseResult
  {
    if !input.JsObject? then Failure([Issue([], InvalidType("object"))])
    else
      var fields := input.fields;
      var issues := ObjectIssues(fields);
      if issues != [] then Failure(issues)
      else
        var image := Field(fields, "image");
        Success(ProductSchema(Field(fields, "name").s, Field(fields, "price"), Field(fields, "description").s,
                              if image.JsString? then Some(image.s) else None, Field(fields, "categoryId").s))
  }

  predicate MeetsSchema(fields: map<string, JsValue>)
  {
    && Field(fields, "name").JsString? && Utf16Length(Field(fields, "name").s) >= NameMin
    && Field(fields, "description").JsString? && Utf16Length(Field(fields, "description").s) >= DescriptionMin
    && (Field(fields, "image").JsUndefined? || Field(fields, "image").JsString?)
    && Field(fields, "categoryId").JsString? && Utf16Length(Field(fields, "categoryId").s) >= CategoryMin
  }

  /**
   * Parsing succeeds exactly for an object meeting every rule, and then returns the input's
   * own values for the schema's keys.
   */
  lemma SafeParseSuccessIff(input: JsValue)
    ensures SafeParse(input).Success? <==> input.JsObject? && MeetsSchema(input.fields)
    ensures SafeParse(input).Success? ==>
              var d := SafeParse(input).data;
              && JsString(d.name) == input.fields["name"]
              && JsString(d.description) == input.fields["description"]
              && JsString(d.categoryId) == input.fields["categoryId"]
              && d.price == Field(input.fields, "price")
              && (d.image.Some? <==> Field(input.fields, "image") != JsUndefined)
              && (d.image.Some? ==> Field(input.fields, "image") == JsString(d.image.value))
  {
  }

  /**
   * A failed object parse reports one issue per broken key, never one for `price`, and in
   * the order of the schema's keys.
   */
  lemma IssuesFollowKeyOrder(fields: map<string, JsValue>)
    ensures var issues := ObjectIssues(fields);
            && |issues| <= 4
            && (forall i :: 0 <= i < |issues| ==> issues[i].path != ["price"])
            && (forall i, j :: 0 <= i < j < |issues| ==> KeyRank(issues[i].path) < KeyRank(issues[j].path))
  {
    var a := StringIssues("name", Field(fields, "name"), NameMin, NameMessage);
    var b := StringIssues("description", Field(fields, "description"), DescriptionMin, DescriptionMessage);
    var c := OptionalStringIssues("image", Field(fields, "image"));
    var d := StringIssues("categoryId", Field(fields, "categoryId"), CategoryMin, CategoryMessage);
    assert ObjectIssues(fields) == a + b + c + d;
    var issues := a + b + c + d;
    forall i | 0 <= i < |issues|
      ensures KeyRank(issues[i].path) == if i < |a| then 0 else if i < |a| + |b| then 1
                                         else if i < |a| + |b| + |c| then 2 else 3
    {
      if i < |a| { assert issues[i] == a[i]; }
      else if i < |a| + |b| { assert issues[i] == b[i - |a|]; }
      else if i < |a| + |b| + |c| { assert issues[i] == c[i - |a| - |b|]; }
      else { assert issues[i] == d[i - |a| - |b| - |c|]; }
    }
  }

  /** The position of an issue's key among the schema's checked keys. */
  function KeyRank(path: seq<string>): nat
  {
    if path == ["name"] then 0
    else if path == ["description"] then 1
    else if path == ["image"] then 2
    else 3
  }

  /**
   * The name rule asks for one character although its message speaks of more than ten:
   * a one-letter name passes it.
   */
  lemma NameRuleLooserThanMessage()
    ensures StringIssues("name", JsString("a"), NameMin, NameMessage) == []
  {
  }

  /** Any price passes, whatever its type, and is kept as given. */
  lemma AnyPriceAccepted(fields: map<string, JsValue>, price: JsValue)
    requires MeetsSchema(fields)
    ensures SafeParse(JsObject(fields["price" := price])) == Success(SafeParse(JsObject(fields)).data.(price := price))
  {
    var updated := fields["price" := price];
    assert Field(updated, "name") == Field(fields, "name");
    assert Field(updated, "description") == Field(fields, "description");
    assert Field(updated, "image") == Field(fields, "image");
    assert Field(updated, "categoryId") == Field(fields, "categoryId");
  }
}
