/**
 * The menu management screen: products grouped in collapsible category sections, a search
 * box, deletion after confirmation and an edit modal that posts a multipart body.
 */
module ProductsPage {
  import opened Outcomes
  import opened Text
  import opened Lists
  import opened Entities
  import opened Services

  const UpdatedText: string := "Produto atualizado com sucesso!"
  const UpdateFailedText: string := "Falha ao atualizar produto"

  // ----- The expanded-category list -----

  /** The list the fetch effect sets: the categories' ids in order, falsy ids skipped. */
  function InitialExpanded(cats: seq<Category>): (r: seq<string>)
    ensures forall i :: 0 <= i < |r| ==> r[i] != ""
    ensures forall x :: x in r <==> x != "" && exists c :: c in cats && c.id == Some(x)
  {
    if cats == [] then []
    else
      assert forall c :: c in cats <==> c == cats[0] || c in cats[1..];
      (if cats[0].id.Some? && cats[0].id.value != "" then [cats[0].id.value] else [])
      + InitialExpanded(cats[1..])
  }

  /** The initial list follows the order of the fetched categories. */
  lemma {:induction false} InitialExpandedAppend(a: seq<Category>, b: seq<Category>)
    ensures InitialExpanded(a + b) == InitialExpanded(a) + InitialExpanded(b)
  {
    if a == [] {
      assert a + b == b;
    } else {
      assert (a + b)[1..] == a[1..] + b;
      InitialExpandedAppend(a[1..], b);
    }
  }

  function IsNot(id: string): string -> bool
  {
    x => x != id
  }

  /** `toggleCategory`: drop every occurrence of a present id, or append an absent one. */
  function Toggle(expanded: seq<string>, id: string): seq<string>
  {
    if id in expanded then Filter(expanded, IsNot(id)) else expanded + [id]
  }

  /** Toggling flips the id's membership, removes all of its occurrences, and touches nothing else. */
  lemma ToggleFlipsMembership(expanded: seq<string>, id: string)
    ensures id in Toggle(expanded, id) <==> id !in expanded
    ensures multiset(Toggle(expanded, id))[id] == if id in expanded then 0 else 1
    ensures forall x :: x != id ==> multiset(Toggle(expanded, id))[x] == multiset(expanded)[x]
  {
    if id in expanded {
      FilterMembership(expanded, IsNot(id), id);
      FilterMultiset(expanded, IsNot(id), id);
      forall x | x != id ensures multiset(Toggle(expanded, id))[x] == multiset(expanded)[x] {
        FilterMultiset(expanded, IsNot(id), x);
      }
    }
  }

  /** Toggling an absent id twice gives back exactly the original list. */
  lemma ToggleTwiceRestores(expanded: seq<string>, id: string)
    requires id !in expanded
    ensures Toggle(Toggle(expanded, id), id) == expanded
  {
    FilterAppend(expanded, [id], IsNot(id));
    FilterKeepsAll(expanded, IsNot(id));
    assert Filter([id], IsNot(id)) == [];
  }

  /** Toggling a present id twice moves it, once, to the end of the list. */
  lemma ToggleTwiceMovesToEnd(expanded: seq<string>, id: string)
    requires id in expanded
    ensures Toggle(Toggle(expanded, id), id) == Filter(expanded, IsNot(id)) + [id]
  {
    FilterMembership(expanded, IsNot(id), id);
  }

  // ----- The edit form -----

  datatype EditForm = EditForm(name: string, description: string, price: string,
                               image: Option<FileRef>, categoryId: string)

  /** The text inputs `handleChange` is bound to, by their `name` attribute. */
  datatype EditField = NameField | DescriptionField | PriceField | CategoryIdField

  function FieldValue(f: EditForm, field: EditField): string
  {
    match field
    case NameField => f.name
    case DescriptionField => f.description
    case PriceField => f.price
    case CategoryIdField => f.categoryId
  }

  /** `setFormData(prev => ({ ...prev, [name]: value }))`: the named field changes, nothing else. */
  function WithField(f: EditForm, field: EditField, value: string): (r: EditForm)
    ensures FieldValue(r, field) == value
    ensures forall g :: g != field ==> FieldValue(r, g) == FieldValue(f, g)
    ensures r.image == f.image
  {
    match field
    case NameField => f.(name := value)
    case DescriptionField => f.(description := value)
    case PriceField => f.(price := value)
    case CategoryIdField => f.(categoryId := value)
  }

  // ----- Deleting and merging products -----

  function OtherThan(id: Option<string>): Product -> bool
  {
    (p: Product) => p.id != id
  }

  /** `produtos.filter(produto => produto.id !== id)`. */
  function WithoutProduct(ps: seq<Product>, id: Option<string>): seq<Product>
  {
    Filter(ps, OtherThan(id))
  }

  /**
   * Deleting removes every product with that id and keeps every other product, as often as
   * it occurred; deleting an id that is no longer listed leaves the list as it was.
   */
  lemma WithoutProductRemovesExactly(ps: seq<Product>, id: Option<string>)
    ensures forall p :: p in WithoutProduct(ps, id) <==> p in ps && p.id != id
    ensures forall p: Product :: p.id != id ==> multiset(WithoutProduct(ps, id))[p] == multiset(ps)[p]
    ensures (forall i :: 0 <= i < |ps| ==> ps[i].id != id) ==> WithoutProduct(ps, id) == ps
  {
    forall p ensures p in WithoutProduct(ps, id) <==> p in ps && p.id != id {
      FilterMembership(ps, OtherThan(id), p);
    }
    forall p: Product | p.id != id ensures multiset(WithoutProduct(ps, id))[p] == multiset(ps)[p] {
      FilterMultiset(ps, OtherThan(id), p);
    }
    if forall i :: 0 <= i < |ps| ==> ps[i].id != id {
      FilterKeepsAll(ps, OtherThan(id));
    }
  }

  /** The product fields present in the update response. */
  datatype ProductPatch = ProductPatch(
    id: Option<string>,
    name: Option<string>,
    description: Option<string>,
    price: Option<real>,
    categoryId: Option<string>,
    image: Option<string>)

  function Pick<T>(override: Option<T>, current: T): T
  {
    if override.Some? then override.value else current
  }

  /** `{ ...p, ...updated }`: every field present in the response replaces the old one. */
  function Merge(p: Product, u: ProductPatch): Product
  {
    Product(if u.id.Some? then u.id else p.id, Pick(u.name, p.name), Pick(u.description, p.description),
            Pick(u.price, p.price), Pick(u.categoryId, p.categoryId), if u.image.Some? then u.image else p.image)
  }

  /** An empty response changes nothing; merging the same response twice equals merging it once. */
  lemma MergeLaws(p: Product, u: ProductPatch)
    ensures Merge(p, ProductPatch(None, None, None, None, None, None)) == p
    ensures Merge(Merge(p, u), u) == Merge(p, u)
    ensures u.name.Some? ==> Merge(p, u).name == u.name.value
    ensures u.name.None? ==> Merge(p, u).name == p.name
  {
  }

  function MergeWhere(id: Option<string>, u: ProductPatch): Product -> Product
  {
    (p: Product) => if p.id == id then Merge(p, u) else p
  }

  /** `produtos.map(p => p.id === selectedProduct.id ? { ...p, ...updated } : p)`. */
  function UpdatedList(ps: seq<Product>, id: Option<string>, u: ProductPatch): seq<Product>
  {
    Map(ps, MergeWhere(id, u))
  }

  /** Only the products carrying the selected id change, each by the merge; order and length stay. */
  lemma UpdatedListTouchesOnlySelected(ps: seq<Product>, id: Option<string>, u: ProductPatch)
    ensures |UpdatedList(ps, id, u)| == |ps|
    ensures forall i :: 0 <= i < |ps| && ps[i].id != id ==> UpdatedList(ps, id, u)[i] == ps[i]
    ensures forall i :: 0 <= i < |ps| && ps[i].id == id ==> UpdatedList(ps, id, u)[i] == Merge(ps[i], u)
  {
  }

  // ----- Search and sections -----

  /** `name.toLowerCase().includes(term.toLowerCase())`. */
  predicate NameMatches(name: string, term: string)
  {
    Includes(ToLower(name), ToLower(term))
  }

  /** `p.categoryId === cat.id` (a category without id holds no product). */
  predicate InCategory(p: Product, c: Category)
  {
    c.id == Some(p.categoryId)
  }

  function InCategoryOf(c: Category): Product -> bool
  {
    p => InCategory(p, c)
  }

  function MatchingIn(c: Category, term: string): Product -> bool
  {
    p => InCategory(p, c) && NameMatches(p.name, term)
  }

  /** The `filter` on the categories: has products, and its name or one of its products matches. */
  predicate Listed(c: Category, ps: seq<Product>, term: string)
  {
    Any(ps, InCategoryOf(c)) && (NameMatches(c.name, term) || Any(ps, MatchingIn(c, term)))
  }

  function ListedIn(ps: seq<Product>, term: string): Category -> bool
  {
    c => Listed(c, ps, term)
  }

  function ShownIn(c: Category, term: string): Product -> bool
  {
    p => InCategory(p, c) && (term == "" || NameMatches(p.name, term))
  }

  /** `categoryProducts`: the category's products, narrowed by name when a term is typed. */
  function SectionProducts(ps: seq<Product>, c: Category, term: string): seq<Product>
  {
    Filter(ps, ShownIn(c, term))
  }

  /** `expandedCategories.includes(cat.id!) || searchTerm.length > 0`. */
  predicate SectionExpanded(expanded: seq<string>, c: Category, term: string)
  {
    (c.id.Some? && c.id.value in expanded) || |term| > 0
  }

  datatype Section = Section(category: Category, products: seq<Product>, expanded: bool)

  function MakeSection(ps: seq<Product>, expanded: seq<string>, term: string): Category -> Section
  {
    c => Section(c, SectionProducts(ps, c, term), SectionExpanded(expanded, c, term))
  }

  /** A section the `map` renders (it returns null for an empty section under a search). */
  function Rendered(term: string): Section -> bool
  {
    (s: Section) => !(|s.products| == 0 && term != "")
  }

  /** The category sections the screen renders, in order. */
  function Sections(cats: seq<Category>, ps: seq<Product>, expanded: seq<string>, term: string): seq<Section>
  {
    Filter(Map(Filter(cats, ListedIn(ps, term)), MakeSection(ps, expanded, term)), Rendered(term))
  }

  function CategoryOf(s: Section): Category
  {
    s.category
  }

  /**
   * Which categories end up visible, stated without the filter: with no term, those holding a
   * product; with a term, those holding a product whose name matches. A category whose name
   * matches but none of whose products do passes the filter yet renders nothing.
   */
  predicate Visible(c: Category, ps: seq<Product>, term: string)
  {
    if term == "" then Any(ps, InCategoryOf(c)) else Any(ps, MatchingIn(c, term))
  }

  function VisibleIn(ps: seq<Product>, term: string): Category -> bool
  {
    c => Visible(c, ps, term)
  }

  lemma VisibleOne(c: Category, ps: seq<Product>, expanded: seq<string>, term: string)
    ensures Listed(c, ps, term) && Rendered(term)(MakeSection(ps, expanded, term)(c)) <==> Visible(c, ps, term)
  {
    FilterEmptyIffNone(ps, ShownIn(c, term));
    if term == "" {
      assert ToLower(term) == [];
      assert NameMatches(c.name, term);
    } else {
      assert forall i :: 0 <= i < |ps| ==> (ShownIn(c, term)(ps[i]) <==> MatchingIn(c, term)(ps[i]));
      if Any(ps, MatchingIn(c, term)) {
        var i :| 0 <= i < |ps| && MatchingIn(c, term)(ps[i]);
        assert InCategoryOf(c)(ps[i]);
      }
    }
  }

  /** The rendered sections are exactly the visible categories, in the fetched order. */
  lemma {:induction false} SectionsAreVisibleCategories(cats: seq<Category>, ps: seq<Product>,
                                                      expanded: seq<string>, term: string)
    ensures Map(Sections(cats, ps, expanded, term), CategoryOf) == Filter(cats, VisibleIn(ps, term))
  {
    if cats != [] {
      var c, rest := cats[0], cats[1..];
      var L, M, R := ListedIn(ps, term), MakeSection(ps, expanded, term), Rendered(term);
      var head := if L(c) then [c] else [];
      assert Filter(cats, L) == head + Filter(rest, L);
      MapAppend(head, Filter(rest, L), M);
      FilterAppend(Map(head, M), Map(Filter(rest, L), M), R);
      MapAppend(Filter(Map(head, M), R), Sections(rest, ps, expanded, term), CategoryOf);
      SectionsAreVisibleCategories(rest, ps, expanded, term);
      VisibleOne(c, ps, expanded, term);
    }
  }

  /**
   * Every rendered section holds at least one product, all of them in its category and, under
   * a search, matching the term; it is expanded when its id is in the list or a term is typed.
   */
  lemma {:induction false} SectionsContents(cats: seq<Category>, ps: seq<Product>,
                                            expanded: seq<string>, term: string)
    ensures forall s :: s in Sections(cats, ps, expanded, term) ==>
              && s.products == SectionProducts(ps, s.category, term)
              && s.products != []
              && s.expanded == SectionExpanded(expanded, s.category, term)
              && forall p :: p in s.products ==> InCategory(p, s.category) && (term == "" || NameMatches(p.name, term))
  {
    var listed := Filter(cats, ListedIn(ps, term));
    var all := Map(listed, MakeSection(ps, expanded, term));
    forall s | s in Sections(cats, ps, expanded, term)
      ensures s.products == SectionProducts(ps, s.category, term)
      ensures s.products != []
      ensures s.expanded == SectionExpanded(expanded, s.category, term)
      ensures forall p :: p in s.products ==> InCategory(p, s.category) && (term == "" || NameMatches(p.name, term))
    {
      FilterMembership(all, Rendered(term), s);
      var k :| 0 <= k < |all| && all[k] == s;
      var c := listed[k];
      assert s == MakeSection(ps, expanded, term)(c);
      FilterMembership(cats, ListedIn(ps, term), c);
      VisibleOne(c, ps, expanded, term);
      FilterEmptyIffNone(ps, ShownIn(c, term));
      if term == "" {
        assert ToLower(term) == [];
        var i :| 0 <= i < |ps| && InCategoryOf(c)(ps[i]);
        assert ShownIn(c, term)(ps[i]);
      }
      forall p | p in s.products ensures InCategory(p, c) && (term == "" || NameMatches(p.name, term)) {
        FilterMembership(ps, ShownIn(c, term), p);
      }
    }
  }

  /** Under a search, a category matched only by its own name is listed by the filter but hidden. */
  lemma NameOnlyMatchHidden(c: Category, ps: seq<Product>, expanded: seq<string>, term: string)
    requires term != "" && NameMatches(c.name, term)
    requires Any(ps, InCategoryOf(c)) && !Any(ps, MatchingIn(c, term))
    ensures Listed(c, ps, term)
    ensures MakeSection(ps, expanded, term)(c).products == []
  {
    FilterEmptyIffNone(ps, ShownIn(c, term));
    assert forall i :: 0 <= i < |ps| ==> (ShownIn(c, term)(ps[i]) <==> MatchingIn(c, term)(ps[i]));
  }

  // ----- The screen -----

  /**
   * A submit that fails changes no React state, so no re-render creates a fresh `FormData`:
   * the next submit appends to the same one and sends every field twice.
   */
  lemma RetryAfterFailureRepeatsFields(f: EditForm)
    ensures var body := ProductMultipart(f.name, f.description, f.price, f.categoryId, None, f.image);
            var twice := Keys(body + body);
            |twice| == 2 * |body| && twice[0] == "name" && twice[|body|] == "name"
  {
    var body := ProductMultipart(f.name, f.description, f.price, f.categoryId, None, f.image);
    ProductMultipartKeys(f.name, f.description, f.price, f.categoryId, None, f.image);
    KeysAppend(body, body);
  }

  /** Appending the edit form's fields one by one to a body extends it by the multipart product body. */
  lemma AppendedFieldsAreBody(d: seq<FormEntry>, f: EditForm)
    ensures var fixed := d + [FormEntry("name", TextValue(f.name))] + [FormEntry("description", TextValue(f.description))]
                         + [FormEntry("price", TextValue(f.price))] + [FormEntry("categoryId", TextValue(f.categoryId))];
            var body := d + ProductMultipart(f.name, f.description, f.price, f.categoryId, None, f.image);
            && (f.image.None? ==> fixed == body)
            && (f.image.Some? ==> fixed + [FormEntry("image", FileValue(f.image.value))] == body)
  {
    assert FixedFields(f.name, f.description, f.price, f.categoryId)
           == [FormEntry("name", TextValue(f.name))] + [FormEntry("description", TextValue(f.description))]
              + [FormEntry("price", TextValue(f.price))] + [FormEntry("categoryId", TextValue(f.categoryId))];
  }

  /** The screen's React state, plus the `FormData` object of the current render. */
  datatype ScreenState = ScreenState(
    open: bool,
    produtos: seq<Product>,
    categories: seq<Category>,
    selectedProduct: Option<Product>,
    expanded: seq<string>,
    formData: EditForm,
    searchTerm: string,
    data: seq<FormEntry>)

  class ProductsScreen {
    var open: bool
    var produtos: seq<Product>
    var categories: seq<Category>
    var selectedProduct: Option<Product>
    var expanded: seq<string>
    var formData: EditForm
    var searchTerm: string
    /** The `FormData` created by the current render; `handleSubmit` appends to it. */
    var data: seq<FormEntry>

    function State(): ScreenState
      reads this
    {
      ScreenState(open, produtos, categories, selectedProduct, expanded, formData, searchTerm, data)
    }

    /** The category sections on screen. */
    function VisibleSections(): seq<Section>
      reads this
    {
      Sections(categories, produtos, expanded, searchTerm)
    }

    constructor ()
      ensures State() == ScreenState(false, [], [], None, [], EditForm("", "", "", None, ""), "", [])
    {
      open, produtos, categories, selectedProduct := false, [], [], None;
      expanded, formData, searchTerm, data := [], EditForm("", "", "", None, ""), "", [];
    }

    /** A re-render: the component body runs again and creates a fresh, empty `FormData`. */
    method Render()
      modifies this
      ensures State() == old(State()).(data := [])
    {
      data := [];
    }

    /**
     * The fetch effect: categories first (which also resets the expanded list), then products;
     * a rejection stops the sequence and keeps what was already set.
     */
    method FetchData(categoriesResult: Outcome<seq<Category>>, productsResult: Outcome<seq<Product>>)
      returns (calls: seq<ServiceCall>)
      modifies this
      ensures calls == if categoriesResult.Resolved? then [CategoryGet, ProductGet] else [CategoryGet]
      ensures categoriesResult.Rejected? ==> State() == old(State())
      ensures categoriesResult.Resolved? ==>
                State() == old(State()).(expanded := InitialExpanded(categoriesResult.value),
                                         categories := categoriesResult.value,
                                         produtos := if productsResult.Resolved? then productsResult.value
                                                     else old(produtos))
    {
      calls := [CategoryGet];
      if categoriesResult.Resolved? {
        expanded := InitialExpanded(categoriesResult.value);
        categories := categoriesResult.value;
        calls := calls + [ProductGet];
        if productsResult.Resolved? {
          produtos := productsResult.value;
        }
      }
    }

    method ToggleCategory(id: string)
      modifies this
      ensures State() == old(State()).(expanded := Toggle(old(expanded), id))
      ensures id in expanded <==> id !in old(expanded)
    {
      ToggleFlipsMembership(expanded, id);
      if id in expanded {
        expanded := Filter(expanded, IsNot(id));
      } else {
        expanded := expanded + [id];
      }
    }

    /** `handleEdit`; `priceText` is `produto.price.toString()`, number formatting not being modelled. */
    method HandleEdit(p: Product, priceText: string)
      modifies this
      ensures State() == old(State()).(selectedProduct := Some(p), open := true,
                                       formData := EditForm(p.name, p.description, priceText, None, p.categoryId))
    {
      selectedProduct := Some(p);
      formData := EditForm(p.name, p.description, priceText, None, p.categoryId);
      open := true;
    }

    method HandleChange(field: EditField, value: string)
      modifies this
      ensures State() == old(State()).(formData := WithField(old(formData), field, value))
    {
      formData := WithField(formData, field, value);
    }

    /** `handleFileChange`: `file` is the first selected file, if any; none leaves the form alone. */
    method HandleFileChange(file: Option<FileRef>)
      modifies this
      ensures State() == if file.Some? then old(State()).(formData := old(formData).(image := file))
                         else old(State())
    {
      if file.Some? {
        formData := formData.(image := file);
      }
    }

    /**
     * `scrollToCategory`: when the category's section exists on the page, it is expanded if
     * it was collapsed; an expanded one stays expanded.
     */
    method ScrollToCategory(id: string, sectionExists: bool)
      modifies this
      ensures State() == if sectionExists && id !in old(expanded)
                         then old(State()).(expanded := Toggle(old(expanded), id))
                         else old(State())
      ensures sectionExists ==> id in expanded
    {
      if sectionExists && id !in expanded {
        ToggleCategory(id);
      }
    }

    method SetSearchTerm(term: string)
      modifies this
      ensures State() == old(State()).(searchTerm := term)
    {
      searchTerm := term;
    }

    /**
     * The delete confirmation followed by `excludeItem`: no call unless confirmed, and the
     * list loses exactly the products with that id only when the backend accepts.
     */
    method ConfirmAndExclude(id: Option<string>, confirmed: bool, result: Outcome<()>)
      returns (calls: seq<ServiceCall>)
      modifies this
      ensures calls == if confirmed then [ProductDelete(id)] else []
      ensures State() == if confirmed && result.Resolved?
                         then old(State()).(produtos := WithoutProduct(old(produtos), id))
                         else old(State())
    {
      calls := [];
      if confirmed {
        calls := [ProductDelete(id)];
        if result.Resolved? {
          produtos := WithoutProduct(produtos, id);
        }
      }
    }

    /** The appends of `handleSubmit`: the form's fields, and its image when one was chosen. */
    method AppendFormFields()
      modifies this
      ensures State() == old(State()).(data := old(data) + ProductMultipart(formData.name, formData.description,
                                                                             formData.price, formData.categoryId,
                                                                             None, formData.image))
    {
      ghost var before := data;
      data := data + [FormEntry("name", TextValue(formData.name))];
      data := data + [FormEntry("description", TextValue(formData.description))];
      data := data + [FormEntry("price", TextValue(formData.price))];
      data := data + [FormEntry("categoryId", TextValue(formData.categoryId))];
      if formData.image.Some? {
        data := data + [FormEntry("image", FileValue(formData.image.value))];
      }
      AppendedFieldsAreBody(before, formData);
    }

    /**
     * `handleSubmit`: nothing without a selected product; otherwise the fields are appended
     * to the render's `FormData` and sent; on success the response is merged into the
     * products carrying the selected id and the modal closes.
     */
    method HandleSubmit(result: Outcome<ProductPatch>) returns (calls: seq<ServiceCall>, notice: Option<Notice>)
      modifies this
      ensures old(selectedProduct).None? ==> calls == [] && notice == None && State() == old(State())
      ensures old(selectedProduct).Some? ==>
                notice == Some(if result.Resolved? then SuccessNotice(UpdatedText) else ErrorNotice(UpdateFailedText))
      ensures old(selectedProduct).Some? ==>
                var f := old(formData);
                var body := old(data) + ProductMultipart(f.name, f.description, f.price, f.categoryId, None, f.image);
                var id := old(selectedProduct).value.id;
                && calls == [ProductUpdate(id, body)]
                && State() == if result.Resolved?
                              then old(State()).(data := body, open := false, selectedProduct := None,
                                                 produtos := UpdatedList(old(produtos), id, result.value))
                              else old(State()).(data := body)
    {
      calls, notice := [], None;
      if selectedProduct.None? {
        return;
      }
      var selected := selectedProduct.value;
      AppendFormFields();
      calls := [ProductUpdate(selected.id, data)];
      if result.Resolved? {
        produtos := UpdatedList(produtos, selected.id, result.value);
        notice := Some(SuccessNotice(UpdatedText));
        open := false;
        selectedProduct := None;
      } else {
        notice := Some(ErrorNotice(UpdateFailedText));
      }
    }
  }
}
