/**
 * The reusable product editor: it creates a product, or updates the one it was opened with,
 * from a multipart body built field by field.
 */
module ProductForm {
  import opened Outcomes
  import opened Entities
  import opened Services
  import opened ProductDraft

  const MissingCategoryText: string := "Por favor, selecione uma categoria para o produto."
  const UpdatedText: string := "Produto atualizado com sucesso!"
  const CreatedText: string := "Produto criado com sucesso!"
  const ErrorFallback: string := "Erro ao salvar produto"

  /**
   * The form's starting values: the edited product's fields, or empty ones. `priceText` is
   * the product's `price.toString()`, which is used only when a product is given.
   */
  function InitialFormData(initialData: Option<Product>, priceText: string): (f: ProductFormData)
    ensures initialData.None? ==> f == ProductFormData("", "", "", "")
    ensures initialData.Some? ==>
              f == ProductFormData(initialData.value.name, priceText, initialData.value.description,
                                   initialData.value.categoryId)
  {
    if initialData.None? then ProductFormData("", "", "", "")
    else ProductFormData(initialData.value.name, priceText, initialData.value.description,
                         initialData.value.categoryId)
  }

  /** `initialData?.id` read as a condition: the id of the product being edited, if non-empty. */
  function EditedId(initialData: Option<Product>): Option<string>
  {
    if initialData.Some? then Truthy(initialData.value.id) else None
  }

  /** The request a submission sends: an update of the edited product, or a creation. */
  function SaveCall(initialData: Option<Product>, body: seq<FormEntry>): (c: ServiceCall)
    ensures EditedId(initialData).Some? ==> c == ProductUpdate(EditedId(initialData), body)
    ensures EditedId(initialData).None? ==> c == ProductCreateMultipart(body)
  {
    if EditedId(initialData).Some? then ProductUpdate(EditedId(initialData), body)
    else ProductCreateMultipart(body)
  }

  /**
   * Whatever the form was opened with, the request carries the body unchanged, and it is an
   * update exactly when the product has a non-empty id, which is then the id it names.
   */
  lemma SaveCallCarriesBody(initialData: Option<Product>, body: seq<FormEntry>)
    ensures SaveCall(initialData, body).body == body
    ensures SaveCall(initialData, body).ProductUpdate?
            <==> initialData.Some? && initialData.value.id.Some? && initialData.value.id.value != ""
    ensures SaveCall(initialData, body).ProductUpdate? ==>
              SaveCall(initialData, body).productId == initialData.value.id
  {
  }

  /** The body of a submission, as `handleSubmit` appends it. */
  function SubmittedBody(f: ProductFormData, company: Option<Company>, image: Option<FileRef>): (body: seq<FormEntry>)
  {
    ProductMultipart(f.name, f.description, f.price, f.categoryId, CompanyId(company), image)
  }

  /**
   * The body carries the four fields under their own names, then `companyId` exactly when
   * the session's company has an id, then `image` exactly when a file was chosen.
   */
  lemma SubmittedBodyShape(f: ProductFormData, company: Option<Company>, image: Option<FileRef>)
    ensures Keys(SubmittedBody(f, company, image))
            == ["name", "description", "price", "categoryId"]
               + (if CompanyId(company).Some? then ["companyId"] else [])
               + (if image.Some? then ["image"] else [])
    ensures var body := SubmittedBody(f, company, image);
            && Lookup(body, "name") == Some(TextValue(f.name))
            && Lookup(body, "description") == Some(TextValue(f.description))
            && Lookup(body, "price") == Some(TextValue(f.price))
            && Lookup(body, "categoryId") == Some(TextValue(f.categoryId))
  {
    ProductMultipartKeys(f.name, f.description, f.price, f.categoryId, CompanyId(company), image);
    ProductMultipartValues(f.name, f.description, f.price, f.categoryId, CompanyId(company), image);
  }

  /**
   * A product opened for editing and submitted untouched sends its own name, description and
   * category and the price text it was shown with, as an update of itself when it has an
   * id; a fresh form has no category, so submitting it untouched is refused.
   */
  lemma UntouchedEditResendsProduct(p: Product, priceText: string, company: Option<Company>,
                                    image: Option<FileRef>)
    ensures var body := SubmittedBody(InitialFormData(Some(p), priceText), company, image);
            && Lookup(body, "name") == Some(TextValue(p.name))
            && Lookup(body, "description") == Some(TextValue(p.description))
            && Lookup(body, "price") == Some(TextValue(priceText))
            && Lookup(body, "categoryId") == Some(TextValue(p.categoryId))
            && (p.id.Some? && p.id.value != "" ==> SaveCall(Some(p), body) == ProductUpdate(p.id, body))
    ensures forall t :: InitialFormData(None, t).categoryId == ""
  {
    SubmittedBodyShape(InitialFormData(Some(p), priceText), company, image);
  }

  datatype FormState = FormState(
    isLoading: bool,
    categories: seq<Category>,
    formData: ProductFormData,
    image: Option<FileRef>)

  class ProductFormComponent {
    const initialData: Option<Product>
    var isLoading: bool
    var categories: seq<Category>
    var formData: ProductFormData
    var image: Option<FileRef>

    function State(): FormState
      reads this
    {
      FormState(isLoading, categories, formData, image)
    }

    constructor (initialData: Option<Product>, priceText: string)
      ensures this.initialData == initialData
      ensures State() == FormState(false, [], InitialFormData(initialData, priceText), None)
    {
      this.initialData := initialData;
      isLoading, categories, image := false, [], None;
      formData := InitialFormData(initialData, priceText);
    }

    /** The mount effect; it has no error handling, so a failure leaves the list as it was. */
    method FetchCategories(result: Outcome<seq<Category>>) returns (calls: seq<ServiceCall>)
      modifies this
      ensures calls == [CategoryGet]
      ensures State() == (if result.Resolved? then old(State()).(categories := result.value) else old(State()))
    {
      calls := [CategoryGet];
      if result.Resolved? {
        categories := result.value;
      }
    }

    method HandleChange(field: FormField, value: string)
      modifies this
      ensures State() == old(State()).(formData := WithField(old(formData), field, value))
    {
      formData := WithField(formData, field, value);
    }

    /** A change event without a file keeps the chosen one. */
    method HandleFileChange(file: Option<FileRef>)
      modifies this
      ensures State() == (if file.Some? then old(State()).(image := file) else old(State()))
    {
      if file.Some? {
        image := file;
      }
    }

    /**
     * `handleSubmit`. Without a category nothing is sent and an alert is shown. Otherwise the
     * body is built and sent as an update of the edited product or as a creation while
     * `isLoading` is true; success is announced and reported to the parent, a failure shows
     * the error's message; `isLoading` is false afterwards.
     */
    method HandleSubmit(company: Option<Company>, result: Outcome<()>)
      returns (calls: seq<ServiceCall>, loadingDuringCall: bool, notice: Notice, succeeded: bool)
      modifies this
      ensures old(formData).categoryId == "" ==>
                && calls == [] && !loadingDuringCall && !succeeded
                && notice == ErrorNotice(MissingCategoryText) && State() == old(State())
      ensures old(formData).categoryId != "" ==>
                && calls == [SaveCall(initialData, SubmittedBody(old(formData), company, old(image)))]
                && loadingDuringCall
                && succeeded == result.Resolved?
                && notice == (if result.Rejected? then ErrorNotice(InstanceMessage(result.error, ErrorFallback))
                              else if EditedId(initialData).Some? then SuccessNotice(UpdatedText)
                              else SuccessNotice(CreatedText))
                && State() == old(State()).(isLoading := false)
    {
      calls, loadingDuringCall, succeeded := [], false, false;
      if formData.categoryId == "" {
        notice := ErrorNotice(MissingCategoryText);
        return;
      }
      isLoading := true;
      loadingDuringCall := isLoading;
      var data: seq<FormEntry> := [];
      data := data + [FormEntry("name", TextValue(formData.name))];
      data := data + [FormEntry("description", TextValue(formData.description))];
      data := data + [FormEntry("price", TextValue(formData.price))];
      data := data + [FormEntry("categoryId", TextValue(formData.categoryId))];
      var companyId := CompanyId(company);
      if companyId.Some? {
        data := data + [FormEntry("companyId", TextValue(companyId.value))];
      }
      if image.Some? {
        data := data + [FormEntry("image", FileValue(image.value))];
      }
      assert data == SubmittedBody(formData, company, image);
      var successMessage := if EditedId(initialData).Some? then UpdatedText else CreatedText;
      if EditedId(initialData).Some? {
        calls := [ProductUpdate(EditedId(initialData), data)];
      } else {
        calls := [ProductCreateMultipart(data)];
      }
      if result.Resolved? {
        notice := SuccessNotice(successMessage);
        succeeded := true;
      } else {
        notice := ErrorNotice(InstanceMessage(result.error, ErrorFallback));
      }
      isLoading := false;
    }
  }
}
