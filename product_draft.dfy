/**
 * The four text inputs both product editors keep in React state, and the change handler
 * they share.
 */
module ProductDraft {

  datatype ProductFormData = ProductFormData(name: string, price: string, description: string, categoryId: string)

  /** The inputs `handleChange` is bound to, by their `name` attribute. */
  datatype FormField = NameField | PriceField | DescriptionField | CategoryIdField

  function FieldValue(f: ProductFormData, field: FormField): string
  {
    match field
    case NameField => f.name
    case PriceField => f.price
    case DescriptionField => f.description
    case CategoryIdField => f.categoryId
  }

  /** `setFormData(prev => ({ ...prev, [name]: value }))`: only the named field changes. */
  function WithField(f: ProductFormData, field: FormField, value: string): (r: ProductFormData)
    ensures FieldValue(r, field) == value
    ensures forall g :: g != field ==> FieldValue(r, g) == FieldValue(f, g)
  {
    match field
    case NameField => f.(name := value)
    case PriceField => f.(price := value)
    case DescriptionField => f.(description := value)
    case CategoryIdField => f.(categoryId := value)
  }
}
