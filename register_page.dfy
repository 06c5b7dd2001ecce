/**
 * The two-tab registration screen: a product form with an image picker, and a category form
 * that switches between creating and editing, above the list of categories.
 */
module RegisterPage {
  import opened Outcomes
  import opened Entities
  import opened Services

  const EmptyNameAlert: string := "Por favor, preencha um valor no campo de nome da categoria."
  const DeleteFailedAlert: string := "Erro ao excluir categoria"

  datatype ProductDraft = ProductDraft(name: string, description: string, imagem: string,
                                       price: string, category: string)

  const EmptyDraft: ProductDraft := ProductDraft("", "", "", "", "")

  /** The product inputs `handleChangeProduct` is bound to, by their `id` attribute. */
  datatype DraftField = NameInput | DescriptionInput | CategoryInput | PriceInput

  function DraftValue(d: ProductDraft, field: DraftField): string
  {
    match field
    case NameInput => d.name
    case DescriptionInput => d.description
    case CategoryInput => d.category
    case PriceInput => d.price
  }

  /** `setFormProduct(prev => ({ ...prev, [id]: value }))`: only the named input changes. */
  function WithDraftField(d: ProductDraft, field: DraftField, value: string): (r: ProductDraft)
    ensures DraftValue(r, field) == value
    ensures forall g :: g != field ==> DraftValue(r, g) == DraftValue(d, g)
    ensures r.imagem == d.imagem
  {
    match field
    case NameInput => d.(name := value)
    case DescriptionInput => d.(description := value)
    case CategoryInput => d.(category := value)
    case PriceInput => d.(price := value)
  }

  /** The request `submitCategory` sends: an update of the edited category, else a create. */
  function SaveCall(editing: Option<Category>, name: string): ServiceCall
  {
    if editing.Some? then CategoryUpdate(editing.value.id, name) else CategoryCreate(name)
  }

  datatype RegisterState = RegisterState(
    categories: seq<Category>,
    image: Option<FileRef>,
    imagePreview: Option<string>,
    editingCategory: Option<Category>,
    formProduct: ProductDraft,
    formCategoryName: string)

  class RegisterScreen {
    var categories: seq<Category>
    var image: Option<FileRef>
    var imagePreview: Option<string>
    var editingCategory: Option<Category>
    var formProduct: ProductDraft
    /** `formCategory.name`, the category form's only field. */
    var formCategoryName: string

    function State(): RegisterState
      reads this
    {
      RegisterState(categories, image, imagePreview, editingCategory, formProduct, formCategoryName)
    }

    constructor ()
      ensures State() == RegisterState([], None, None, None, EmptyDraft, "")
    {
      categories, image, imagePreview := [], None, None;
      editingCategory, formProduct, formCategoryName := None, EmptyDraft, "";
    }

    /** The mount effect; its promise is not awaited, so a rejection leaves the list alone. */
    method LoadCategories(result: Outcome<seq<Category>>) returns (calls: seq<ServiceCall>)
      modifies this
      ensures calls == [CategoryGet]
      ensures State() == if result.Resolved? then old(State()).(categories := result.value) else old(State())
    {
      calls := [CategoryGet];
      if result.Resolved? {
        categories := result.value;
      }
    }

    method ChangeProduct(field: DraftField, value: string)
      modifies this
      ensures State() == old(State()).(formProduct := WithDraftField(old(formProduct), field, value))
    {
      formProduct := WithDraftField(formProduct, field, value);
    }

    /** `handleChangeCategory` on the input whose `id` is `name`. */
    method ChangeCategory(value: string)
      modifies this
      ensures State() == old(State()).(formCategoryName := value)
    {
      formCategoryName := value;
    }

    /**
     * `handleImageChange` with a chosen file; `preview` is the data URL the `FileReader`
     * delivers once it has read the file.
     */
    method SelectImage(file: FileRef, preview: string)
      modifies this
      ensures State() == old(State()).(image := Some(file), imagePreview := Some(preview))
    {
      image := Some(file);
      imagePreview := Some(preview);
    }

    method RemoveImage()
      modifies this
      ensures State() == old(State()).(image := None, imagePreview := None)
    {
      image := None;
      imagePreview := None;
    }

    /**
     * `submitCategory`. Only the exact empty name is refused (a name of spaces is sent).
     * A save that fails keeps the form and the edit mode; a save that succeeds clears both
     * before the list is fetched again, and a failed refetch keeps the old list.
     */
    method SubmitCategory(saveResult: Outcome<()>, refetchResult: Outcome<seq<Category>>)
      returns (calls: seq<ServiceCall>, alert: Option<string>)
      modifies this
      ensures old(formCategoryName) == "" ==>
                calls == [] && alert == Some(EmptyNameAlert) && State() == old(State())
      ensures old(formCategoryName) != "" ==>
                && alert == None
                && calls == [SaveCall(old(editingCategory), old(formCategoryName))]
                             + (if saveResult.Resolved? then [CategoryGet] else [])
                && State() == if saveResult.Rejected? then old(State())
                              else old(State()).(editingCategory := None, formCategoryName := "",
                                                 categories := if refetchResult.Resolved? then refetchResult.value
                                                               else old(categories))
    {
      calls, alert := [], None;
      var name := formCategoryName;
      if name == "" {
        alert := Some(EmptyNameAlert);
        return;
      }
      if editingCategory.Some? {
        calls := [CategoryUpdate(editingCategory.value.id, name)];
        if saveResult.Rejected? {
          return;
        }
        editingCategory := None;
      } else {
        calls := [CategoryCreate(name)];
        if saveResult.Rejected? {
          return;
        }
      }
      formCategoryName := "";
      calls := calls + [CategoryGet];
      if refetchResult.Resolved? {
        categories := refetchResult.value;
      }
    }

    /**
     * `submitProduct`: the product is sent with the chosen image; on success the five
     * draft fields, the image and its preview are cleared; on failure nothing changes.
     */
    method SubmitProduct(result: Outcome<()>) returns (calls: seq<ServiceCall>)
      modifies this
      ensures calls == [ProductCreate(ProductFields(old(formProduct).name, old(formProduct).description,
                                                    old(formProduct).price, old(formProduct).category, None),
                                      old(image))]
      ensures State() == if result.Resolved?
                         then old(State()).(formProduct := EmptyDraft, image := None, imagePreview := None)
                         else old(State())
    {
      calls := [ProductCreate(ProductFields(formProduct.name, formProduct.description, formProduct.price,
                                            formProduct.category, None), image)];
      if result.Resolved? {
        formProduct := EmptyDraft;
        image := None;
        imagePreview := None;
      }
    }

    /** `handleEditCategory`: enter edit mode and copy the name into the form. */
    method HandleEditCategory(cat: Category)
      modifies this
      ensures State() == old(State()).(editingCategory := Some(cat), formCategoryName := cat.name)
    {
      editingCategory := Some(cat);
      formCategoryName := cat.name;
    }

    /** `cancelEdit`: leave edit mode and clear the form. */
    method CancelEdit()
      modifies this
      ensures State() == old(State()).(editingCategory := None, formCategoryName := "")
    {
      editingCategory := None;
      formCategoryName := "";
    }

    /**
     * `handleDeleteCategory`: nothing unless the confirmation is accepted; then the delete,
     * and on success a refetch that replaces the list. Either failure raises the same alert.
     */
    method HandleDeleteCategory(id: Option<string>, confirmed: bool, deleteResult: Outcome<()>,
                                refetchResult: Outcome<seq<Category>>)
      returns (calls: seq<ServiceCall>, alert: Option<string>)
      modifies this
      ensures !confirmed ==> calls == [] && alert == None && State() == old(State())
      ensures confirmed ==>
                && calls == [CategoryDelete(id)] + (if deleteResult.Resolved? then [CategoryGet] else [])
                && (alert == Some(DeleteFailedAlert) <==> deleteResult.Rejected? || refetchResult.Rejected?)
                && (alert == None <==> deleteResult.Resolved? && refetchResult.Resolved?)
                && State() == if deleteResult.Resolved? && refetchResult.Resolved?
                              then old(State()).(categories := refetchResult.value)
                              else old(State())
    {
      calls, alert := [], None;
      if !confirmed {
        return;
      }
      calls := [CategoryDelete(id)];
      if deleteResult.Rejected? {
        alert := Some(DeleteFailedAlert);
        return;
      }
      calls := calls + [CategoryGet];
      if refetchResult.Rejected? {
        alert := Some(DeleteFailedAlert);
        return;
      }
      categories := refetchResult.value;
    }
  }
}
