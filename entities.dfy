/**
 * The records the screens exchange with the backend. Identifiers are optional because the
 * screens treat them so (`c.id!`, `.filter(Boolean)`, `newCategory.id || ''`).
 */
module Entities {
  import opened Outcomes

  datatype Category = Category(id: Option<string>, name: string)

  /** A product; its price is a JavaScript number, kept as an exact real. */
  datatype Product = Product(
    id: Option<string>,
    name: string,
    description: string,
    price: real,
    categoryId: string,
    image: Option<string>)

  datatype Company = Company(id: Option<string>, name: string)

  /** One user-to-company association, as `getUserCompanies` lists them. */
  datatype UserCompany = UserCompany(company: Company)

  /** A file picked in a file input. */
  datatype FileRef = FileRef(fileName: string)

  /** An optional string read as a JavaScript condition: present and non-empty. */
  function Truthy(s: Option<string>): (r: Option<string>)
    ensures r.Some? <==> s.Some? && s.value != ""
    ensures r.Some? ==> r == s
  {
    if s.Some? && s.value != "" then s else None
  }

  /** `company?.id` read as a condition: a company with a non-empty id. */
  function CompanyId(company: Option<Company>): (r: Option<string>)
    ensures r.Some? <==> company.Some? && company.value.id.Some? && company.value.id.value != ""
    ensures r.Some? ==> company.value.id == r
  {
    if company.Some? && company.value.id.Some? && company.value.id.value != ""
    then company.value.id
    else None
  }
}
