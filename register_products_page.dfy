/**
 * The product registration screen: a product form scoped to the session's company and a
 * modal that creates a category on the spot and selects it.
 */
module RegisterProductsPage {
  import opened Outcomes
  import opened Text
  import opened Entities
  import opened Services
  import opened ProductDraft

  const CategoryCreatedTitle: string := "Categoria criada!"
  const CategoryErrorText: string := "Erro ao criar categoria"
  const NoCompanyText: string := "Empresa não identificada."
  const ProductCreatedText: string := "Produto cadastrado com sucesso!"
  const ProductErrorFallback: string := "Erro ao cadastrar produto"

  /** `disabled={isCreatingCategory || !newCategoryName.trim()}`. */
  predicate CreateDisabled(isCreatingCategory: bool, newCategoryName: string)
  {
    isCreatingCategory || Trim(newCategoryName) == ""
  }

  /** The create button is disabled while a creation runs or when the name is only whitespace. */
  lemma CreateDisabledIff(isCreatingCategory: bool, newCategoryName: string)
    ensures CreateDisabled(isCreatingCategory, newCategoryName) <==> isCreatingCategory || IsBlank(newCategoryName)
  {
    TrimEmptyIffBlank(newCategoryName);
  }

  /** `newCategory.id || ''`. */
  function SelectedId(c: Category): (id: string)
    ensures c.id.Some? ==> id == c.id.value
    ensures c.id.None? ==> id == ""
  {
    if c.id.Some? then c.id.value else ""
  }

  /**
   * After a creation the product's category is the category just appended to the list, or
   * nothing at all: a non-empty selection always names the last category of the new list,
   * and an empty one passes no category to the submit guard.
   */
  lemma CreatedCategoryIsSelected(cats: seq<Category>, c: Category)
    ensures var list := cats + [c];
            SelectedId(c) != "" ==> list[|list| - 1].id == Some(SelectedId(c))
    ensures SelectedId(c) == "" <==> c.id.None? || c.id == Some("")
  {
  }

  /**
   * This screen refuses more category names than the register screen's category tab, whose
   * only guard is the empty string: every name sent from here is non-empty, and a name of
   * one space is refused here although that tab would send it.
   */
  lemma BlankRefusalIsStricter(name: string)
    ensures !CreateDisabled(false, name) ==> name != ""
    ensures CreateDisabled(false, " ")
  {
    assert IsJsWhitespace(' ');
    assert Trim(" ") == "";
  }

  datatype ScreenState = ScreenState(
    isLoading: bool,
    categories: seq<Category>,
    imagePreview: Option<string>,
    selectedFile: Option<FileRef>,
    isCategoryModalOpen: bool,
    newCategoryName: string,
    isCreatingCategory: bool,
    formData: ProductFormData)

  class RegisterProductsScreen {
    var isLoading: bool
    var categories: seq<Category>
    var imagePreview: Option<string>
    var selectedFile: Option<FileRef>
    var isCategoryModalOpen: bool
    var newCategoryName: string
    var isCreatingCategory: bool
    var formData: ProductFormData

    function State(): ScreenState
      reads this
    {
      ScreenState(isLoading, categories, imagePreview, selectedFile, isCategoryModalOpen,
                  newCategoryName, isCreatingCategory, formData)
    }

    constructor ()
      ensures State() == ScreenState(false, [], None, None, false, "", false, ProductFormData("", "", "", ""))
    {
      isLoading, categories, imagePreview, selectedFile := false, [], None, None;
      isCategoryModalOpen, newCategoryName, isCreatingCategory := false, "", false;
      formData := ProductFormData("", "", "", "");
    }

    /** The authentication effect: send a visitor to `/login`, otherwise load the categories. */
    method Mount(isAuthenticated: bool, result: Outcome<seq<Category>>)
      returns (calls: seq<ServiceCall>, navigation: Option<string>)
      modifies this
      ensures !isAuthenticated ==> calls == [] && navigation == Some("/login") && State() == old(State())
      ensures isAuthenticated ==>
                && calls == [CategoryGet] && navigation == None
                && State() == (if result.Resolved? then old(State()).(categories := result.value) else old(State()))
    {
      calls, navigation := [], None;
      if !isAuthenticated {
        navigation := Some("/login");
        return;
      }
      calls := [CategoryGet];
      if result.Resolved? {
        categories := result.value;
      }
    }

    method HandleChange(field: FormField, value: string)
      modifies this
      ensures State() == old(State()).(formData := WithField(old(formData), field, value))
    {
      formData := WithField(formData, field, value);
    }

    /** `handleFileChange` with a chosen file; `objectUrl` is what `URL.createObjectURL` returns. */
    method HandleFileChange(file: FileRef, objectUrl: string)
      modifies this
      ensures State() == old(State()).(selectedFile := Some(file), imagePreview := Some(objectUrl))
    {
      selectedFile := Some(file);
      imagePreview := Some(objectUrl);
    }

    method RemoveImage()
      modifies this
      ensures State() == old(State()).(imagePreview := None, selectedFile := None)
    {
      imagePreview := None;
      selectedFile := None;
    }

    method SetCategoryModalOpen(isOpen: bool)
      modifies this
      ensures State() == old(State()).(isCategoryModalOpen := isOpen)
    {
      isCategoryModalOpen := isOpen;
    }

    method SetNewCategoryName(name: string)
      modifies this
      ensures State() == old(State()).(newCategoryName := name)
    {
      newCategoryName := name;
    }

    /**
     * `handleCreateCategory`. A blank name does nothing. Otherwise the name is sent as typed
     * (not trimmed) while `isCreatingCategory` is true; the created category is appended and
     * selected, the modal closes and the name is cleared; a failure keeps list and selection.
     * `isCreatingCategory` is false afterwards either way.
     */
    method HandleCreateCategory(result: Outcome<Category>)
      returns (calls: seq<ServiceCall>, creatingDuringCall: bool, notice: Option<Notice>)
      modifies this
      ensures Trim(old(newCategoryName)) == "" ==>
                calls == [] && !creatingDuringCall && notice == None && State() == old(State())
      ensures Trim(old(newCategoryName)) != "" ==>
                && calls == [CategoryCreate(old(newCategoryName))]
                && creatingDuringCall
                && State() == (if result.Resolved?
                               then old(State()).(categories := old(categories) + [result.value],
                                                  formData := old(formData).(categoryId := SelectedId(result.value)),
                                                  isCategoryModalOpen := false,
                                                  newCategoryName := "",
                                                  isCreatingCategory := false)
                               else old(State()).(isCreatingCategory := false))
                && notice == (if result.Resolved? then Some(SuccessNotice(CategoryCreatedTitle))
                              else Some(ErrorNotice(CategoryErrorText)))
    {
      calls, creatingDuringCall, notice := [], false, None;
      if Trim(newCategoryName) == "" {
        return;
      }
      isCreatingCategory := true;
      calls := [CategoryCreate(newCategoryName)];
      creatingDuringCall := isCreatingCategory;
      if result.Resolved? {
        var created := result.value;
        categories := categories + [created];
        formData := formData.(categoryId := SelectedId(created));
        isCategoryModalOpen := false;
        newCategoryName := "";
        notice := Some(SuccessNotice(CategoryCreatedTitle));
      } else {
        notice := Some(ErrorNotice(CategoryErrorText));
      }
      isCreatingCategory := false;
    }

    /**
     * `handleSubmit`. Without a company it reports an error and calls nothing. Otherwise the
     * product goes out with the company's id while `isLoading` is true; success leads to
     * `/products`, failure shows the error's message; `isLoading` is false afterwards.
     */
    method HandleSubmit(company: Option<Company>, result: Outcome<()>)
      returns (calls: seq<ServiceCall>, loadingDuringCall: bool, notice: Notice, navigation: Option<string>)
      modifies this
      ensures company.None? ==>
                && calls == [] && !loadingDuringCall && navigation == None
                && notice == ErrorNotice(NoCompanyText) && State() == old(State())
      ensures company.Some? ==>
                && calls == [ProductCreate(ProductFields(old(formData).name, old(formData).description,
                                                        old(formData).price, old(formData).categoryId,
                                                        company.value.id),
                                          old(selectedFile))]
                && loadingDuringCall
                && State() == old(State()).(isLoading := false)
                && navigation == (if result.Resolved? then Some("/products") else None)
                && notice == (if result.Resolved? then SuccessNotice(ProductCreatedText)
                              else ErrorNotice(MessageOr(result.error, ProductErrorFallback)))
    {
      calls, loadingDuringCall, navigation := [], false, None;
      if company.None? {
        notice := ErrorNotice(NoCompanyText);
        return;
      }
      isLoading := true;
      var fields := ProductFields(formData.name, formData.description, formData.price, formData.categoryId,
                                  company.value.id);
      calls := [ProductCreate(fields, selectedFile)];
      loadingDuringCall := isLoading;
      if result.Resolved? {
        notice := SuccessNotice(ProductCreatedText);
        navigation := Some("/products");
      } else {
        notice := ErrorNotice(MessageOr(result.error, ProductErrorFallback));
      }
      isLoading := false;
    }
  }
}
