/**
 * The reusable category editor: one name field that renames the category it was opened
 * with, or creates a new one.
 */
module CategoryForm {
  import opened Outcomes
  import opened Services
  import opened Entities
  import RegisterPage

  const UpdatedText: string := "Categoria atualizada com sucesso!"
  const CreatedText: string := "Categoria cadastrada com sucesso!"
  const ErrorFallback: string := "Erro ao salvar categoria"

  /** The category the form was opened with (`{ id?: string, name: string }`). */
  datatype CategoryInit = CategoryInit(id: Option<string>, name: string)

  /** `Boolean(initialData?.id)`. */
  predicate IsEditing(initialData: Option<CategoryInit>)
  {
    initialData.Some? && Truthy(initialData.value.id).Some?
  }

  /** The request a submission sends: a rename of the edited category, or a creation. */
  function SaveCall(initialData: Option<CategoryInit>, name: string): (c: ServiceCall)
    ensures IsEditing(initialData) <==> c.CategoryUpdate?
    ensures IsEditing(initialData) ==> c == CategoryUpdate(initialData.value.id, name)
    ensures !IsEditing(initialData) ==> c == CategoryCreate(name)
  {
    if IsEditing(initialData) then CategoryUpdate(initialData.value.id, name) else CategoryCreate(name)
  }

  /**
   * The request always carries the typed name unchanged. For a category with a non-empty id
   * this editor and the category tab of the register screen send the same request; for an
   * id-less one this editor creates a category where that tab sends an update without an id.
   */
  lemma SaveCallsOfBothEditors(id: Option<string>, oldName: string, name: string)
    ensures SaveCall(Some(CategoryInit(id, oldName)), name).name == name
    ensures id.Some? && id.value != "" ==>
              SaveCall(Some(CategoryInit(id, oldName)), name)
              == RegisterPage.SaveCall(Some(Category(id, oldName)), name)
    ensures id.None? ==>
              SaveCall(Some(CategoryInit(id, oldName)), name) == CategoryCreate(name)
              && RegisterPage.SaveCall(Some(Category(id, oldName)), name) == CategoryUpdate(None, name)
  {
  }

  datatype FormState = FormState(isLoading: bool, name: string)

  class CategoryFormComponent {
    const initialData: Option<CategoryInit>
    var isLoading: bool
    var name: string

    function State(): FormState
      reads this
    {
      FormState(isLoading, name)
    }

    /** The name starts as the edited category's, or empty. */
    constructor (initialData: Option<CategoryInit>)
      ensures this.initialData == initialData
      ensures State() == FormState(false, if initialData.Some? then initialData.value.name else "")
    {
      this.initialData := initialData;
      isLoading := false;
      name := if initialData.Some? then initialData.value.name else "";
    }

    method SetName(value: string)
      modifies this
      ensures State() == old(State()).(name := value)
    {
      name := value;
    }

    /**
     * `handleSubmit`: sends the name as it is, with no check. Success is announced and
     * reported to the parent, and clears the name only when creating; a failure shows the
     * error's message and keeps the name. `isLoading` is false afterwards.
     */
    method HandleSubmit(result: Outcome<()>)
      returns (calls: seq<ServiceCall>, loadingDuringCall: bool, notice: Notice, succeeded: bool)
      modifies this
      ensures calls == [SaveCall(initialData, old(name))] && loadingDuringCall
      ensures succeeded == result.Resolved?
      ensures notice == (if result.Rejected? then ErrorNotice(InstanceMessage(result.error, ErrorFallback))
                         else if IsEditing(initialData) then SuccessNotice(UpdatedText)
                         else SuccessNotice(CreatedText))
      ensures State() == FormState(false, if result.Resolved? && !IsEditing(initialData) then "" else old(name))
    {
      isLoading := true;
      loadingDuringCall := isLoading;
      var isEditing := IsEditing(initialData);
      if isEditing {
        calls := [CategoryUpdate(initialData.value.id, name)];
      } else {
        calls := [CategoryCreate(name)];
      }
      succeeded := false;
      if result.Resolved? {
        notice := SuccessNotice(if isEditing then UpdatedText else CreatedText);
        succeeded := true;
        if !isEditing {
          name := "";
        }
      } else {
        notice := ErrorNotice(InstanceMessage(result.error, ErrorFallback));
      }
      isLoading := false;
    }
  }
}
