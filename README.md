# Cardápio admin front end, modelled in Dafny

This project models the admin front end of a digital menu ("cardápio"). Restaurant staff
use it to sign in and to manage the products, categories, users and company shown on a
menu. It covers:

- the authentication context, which keeps the access token in memory, in `localStorage`
  and in a cookie;
- the screens that list, create, edit and delete products and categories;
- the dashboard;
- the company and user sign-up screens;
- the three reusable editors: product, user and category;
- the zod schema of the product form.

Each React component is a Dafny `class`. Its state hooks are fields, and its handlers are
methods that state the whole new state (`State() == old(State()).(...)`). Backend calls are
not performed. A handler receives the outcome of each awaited call as a parameter: an
`Outcome` that is `Resolved(value)` or `Rejected(thrown)`. It returns the list of requests
it sends, as `ServiceCall` values, together with the notice (toast or alert) it shows and
the route it navigates to. Pure pieces are functions with lemmas beside them: the search
filter of the product list, the multipart body, the session transitions, the form
validation, the company sign-up flow and the schema.

Modules:

- `Outcomes`, `Text`, `Lists`, `Entities`, `Services`: shared values and JavaScript
  string, array and `FormData` semantics.
- `AuthContext`: the session provider.
- `ProductsPage`, `RegisterPage`, `RegisterProductsPage`, `DashboardPage`,
  `RegisterCompanyPage`, `RegisterUserPage`: one per screen.
- `ProductForm`, `UserForm`, `CategoryForm`: the editors.
- `FormSchema`: the product schema.

Where this description and the code disagree, the model follows the code:

- A session is authenticated when its token is truthy (`!!token`,
  src/contexts/AuthContext.tsx:41). A stored or received empty string therefore does not
  authenticate.
- The context exposes only `isAuthenticated`, `token`, `login` and `logout`. Screens that
  read `company` from it receive it as an `Option<Company>` parameter. With this context
  that parameter is always `None`, so those screens always take their "no company" branch.
- The company sign-up screen calls `login(token, userCompany)`. `login` takes only the
  token, so the company is dropped.
- The user service defines none of `getUserCompanies`, `associateUserToCompany` and
  `updateUser`. Those steps are modelled by their outcome parameters (`companiesResult`,
  `associateResult` and the user editor's `updateResult`): a rejection covers the
  `TypeError` a missing method raises.
- `Entities.Truthy` (an optional id read as a condition, `initialData?.id`), `Entities.CompanyId`
  (`company?.id` read as a condition), `DashboardPage.OrEmpty` (`data || []`) and
  `RegisterCompanyPage.FirstCompany` (`companies[0].company` or `null`) are plain
  definitions used by the members below.

## Model

| member | source | states |
|---|---|---|
| Outcomes.MessageIdiomsDiffer | src/app/register-company/page.tsx:78-83 | `error.message \|\| fallback` is never empty when the fallback is not. It differs from `error instanceof Error ? error.message : fallback` exactly for an `Error` with an empty message and for a non-`Error` object whose own non-empty message is not the fallback. |
| Text.TrimStart | src/app/register-products/page.tsx:69 | Removing leading whitespace never lengthens the string. |
| Text.TrimEnd | src/app/register-products/page.tsx:69 | Removing trailing whitespace never lengthens the string. |
| Text.TrimStartEmptyIffBlank | src/app/register-products/page.tsx:69 | Trimming the start leaves nothing exactly when every character is JavaScript whitespace. |
| Text.TrimEndEmptyIffBlank | src/app/register-products/page.tsx:69 | Trimming the end leaves nothing exactly when every character is JavaScript whitespace. |
| Text.TrimEmptyIffBlank | src/app/register-products/page.tsx:69 | `name.trim()` is empty exactly when the name is blank, i.e. all whitespace or empty. |
| Text.ToLower | src/app/products/page.tsx:201-211 | Lower-casing keeps the length. |
| Text.ToLowerAt | src/app/products/page.tsx:201-211 | Each character is lower-cased in place. |
| Text.ToLowerIdempotent | src/app/products/page.tsx:201-211 | Lower-casing twice is lower-casing once. |
| Text.IncludesAt | src/app/products/page.tsx:201-211 | `includes` holds exactly when the term occurs at some position. |
| Text.IncludesSuffix | src/app/products/page.tsx:201-211 | A term found in a suffix is found in the whole string. |
| Text.Utf16LengthBounds | src/schemas/formSchema.ts:4-8 | A string's UTF-16 length is between its character count and twice that. |
| Lists.Filter | src/app/products/page.tsx:57 | `filter` keeps only elements that pass, and never lengthens the list. |
| Lists.Map | src/app/products/page.tsx:125 | `map` keeps the length and applies the function at every index. |
| Lists.FindIndex | src/app/dashboard/page.tsx:145 | `find` yields the first element that passes, or none when no element passes. |
| Lists.FilterMembership | src/app/products/page.tsx:104 | An element survives `filter` exactly when it was present and passes. |
| Lists.FilterAppend | src/app/products/page.tsx:57 | Filtering distributes over concatenation. |
| Lists.FilterKeepsAll | src/app/products/page.tsx:57 | A filter that every element passes returns the list unchanged. |
| Lists.FilterEmptyIffNone | src/app/products/page.tsx:203 | `filter(p)` is empty exactly when `some(p)` is false. |
| Lists.FilterIdempotent | src/app/products/page.tsx:57 | Filtering twice by the same test is filtering once. |
| Lists.FilterMultiset | src/app/products/page.tsx:104 | Passing elements keep their multiplicity; failing ones drop to zero. |
| Lists.MapAppend | src/app/products/page.tsx:125 | Mapping distributes over concatenation. |
| Services.Keys | src/components/forms/ProductForm/index.tsx:67-79 | Lists a `FormData` body's keys in append order. |
| Services.Lookup | src/components/forms/ProductForm/index.tsx:67-79 | `FormData.get` finds a value exactly when the key was appended. |
| Services.KeysAppend | src/app/products/page.tsx:113-120 | The keys of appended bodies are the concatenated keys. |
| Services.LookupAppend | src/app/products/page.tsx:113-120 | Lookup in an appended body finds the earlier entry first. |
| Services.LookupCons | src/app/products/page.tsx:113-120 | Lookup checks the first entry before the rest. |
| Services.ProductMultipartKeys | src/components/forms/ProductForm/index.tsx:67-79 | The product body's keys are name, description, price and categoryId, then companyId exactly when known, then image exactly when chosen. |
| Services.FixedFieldsValues | src/components/forms/ProductForm/index.tsx:68-71 | Each of the four text fields carries the value it was built from. |
| Services.FixedFieldsKeys | src/components/forms/ProductForm/index.tsx:68-71 | The four text fields' keys, in order; neither optional key is among them. |
| Services.ProductMultipartValues | src/components/forms/ProductForm/index.tsx:67-79 | Each key looks up the value it was built from; companyId and image are found exactly when given. |
| AuthContext.InitialIsLoggedOut | src/contexts/AuthContext.tsx:14 | A fresh provider is not authenticated. |
| AuthContext.HydrationAdoptsStoredToken | src/contexts/AuthContext.tsx:16-19 | Starting from no token, hydration authenticates exactly when a non-empty token is stored, and adopts that token; storage and cookie are untouched. |
| AuthContext.LoginAuthenticatesIffNonEmpty | src/contexts/AuthContext.tsx:21-28 | After `login(t)`, the session is authenticated exactly when `t` is non-empty; `t` is stored, and it is set as a cookie when a document exists. |
| AuthContext.LoginIdempotent | src/contexts/AuthContext.tsx:21-28 | Logging in twice with the same token equals logging in once. |
| AuthContext.LogoutDeauthenticates | src/contexts/AuthContext.tsx:30-36 | After logout the session is unauthenticated, the stored token is removed and the cookie is expired. |
| AuthContext.LogoutIdempotent | src/contexts/AuthContext.tsx:30-36 | Logging out twice equals logging out once. |
| AuthContext.LogoutUndoesLogin | src/contexts/AuthContext.tsx:21-36 | Logout after login equals logout alone. |
| AuthContext.ReloadKeepsSession | src/contexts/AuthContext.tsx:16-36 | A reload after `login(t)` is authenticated exactly when `t` is non-empty; a reload after logout never is. A reload is a fresh provider that hydrates from the same storage. |
| AuthContext.AuthProvider.constructor | src/contexts/AuthContext.tsx:13-14 | The provider starts with no token. |
| AuthContext.AuthProvider.Hydrate | src/contexts/AuthContext.tsx:16-19 | The mount effect performs the hydration transition. |
| AuthContext.AuthProvider.Login | src/contexts/AuthContext.tsx:21-28 | `login` performs the login transition and authenticates exactly with a non-empty token. |
| AuthContext.AuthProvider.Logout | src/contexts/AuthContext.tsx:30-36 | `logout` performs the logout transition and deauthenticates. |
| ProductsPage.InitialExpanded | src/app/products/page.tsx:42 | The expanded list holds exactly the truthy ids of the fetched categories. |
| ProductsPage.InitialExpandedAppend | src/app/products/page.tsx:42 | The expanded list of concatenated category lists is the concatenation of their expanded lists. |
| ProductsPage.ToggleFlipsMembership | src/app/products/page.tsx:54-60 | Toggling flips the id's membership (0 or 1 occurrence) and leaves every other id's count alone. |
| ProductsPage.ToggleTwiceRestores | src/app/products/page.tsx:54-60 | Opening then closing a collapsed category restores the list. |
| ProductsPage.ToggleTwiceMovesToEnd | src/app/products/page.tsx:54-60 | Closing then reopening an expanded category moves it to the end, with its duplicates removed. |
| ProductsPage.WithField | src/app/products/page.tsx:74-77 | `handleChange` sets the named field, keeps the others and keeps the image. |
| ProductsPage.WithoutProductRemovesExactly | src/app/products/page.tsx:104 | Deleting removes exactly the products with that id; the others keep their count; an absent id changes nothing. |
| ProductsPage.MergeLaws | src/app/products/page.tsx:125 | `{ ...p, ...updated }`: an empty patch changes nothing, and applying a patch twice equals applying it once. A name in the patch replaces the product's name; an absent one keeps it. |
| ProductsPage.UpdatedListTouchesOnlySelected | src/app/products/page.tsx:125 | The update keeps the length, replaces only products with the selected id, and merges the response into them. |
| ProductsPage.VisibleOne | src/app/products/page.tsx:199-214 | A category gets a section exactly when it has products and, with a search term, one of them matches by name. |
| ProductsPage.SectionsAreVisibleCategories | src/app/products/page.tsx:199-214 | The rendered sections are exactly the visible categories, in their original order. |
| ProductsPage.SectionsContents | src/app/products/page.tsx:206-214 | Each section lists its category's products that match the term, never none; it is expanded when toggled open or while searching. |
| ProductsPage.NameOnlyMatchHidden | src/app/products/page.tsx:199-214 | A category that matches only by its own name passes the filter but then renders nothing. |
| ProductsPage.RetryAfterFailureRepeatsFields | src/app/products/page.tsx:17 | Submitting again on the same `FormData` after a failure repeats every field: "name" is at both 0 and the first body's length. |
| ProductsPage.AppendedFieldsAreBody | src/app/products/page.tsx:113-120 | Appending the four fields one by one, then the image if any, extends the body by exactly the multipart product body. |
| ProductsPage.ProductsScreen.constructor | src/app/products/page.tsx:22-35 | Initial state: closed, empty lists, no selection, empty form and empty search term. |
| ProductsPage.ProductsScreen.Render | src/app/products/page.tsx:17 | Each render starts a fresh, empty `FormData`. |
| ProductsPage.ProductsScreen.FetchData | src/app/products/page.tsx:37-52 | Categories are fetched first (also resetting the expanded list), then products; a rejection stops there and keeps earlier state. |
| ProductsPage.ProductsScreen.ToggleCategory | src/app/products/page.tsx:54-60 | The expanded list becomes its toggle, which flips membership of the id. |
| ProductsPage.ProductsScreen.HandleEdit | src/app/products/page.tsx:62-72 | Selects the product, copies its fields into the form with no image, and opens the modal. |
| ProductsPage.ProductsScreen.HandleChange | src/app/products/page.tsx:74-77 | Only the named form field changes. |
| ProductsPage.ProductsScreen.HandleFileChange | src/app/products/page.tsx:79-83 | A chosen file replaces the form's image; no file changes nothing. |
| ProductsPage.ProductsScreen.ScrollToCategory | src/app/products/page.tsx:143-151 | When the section exists, its category ends up expanded; a collapsed one is toggled open. |
| ProductsPage.ProductsScreen.SetSearchTerm | src/app/products/page.tsx:141 | Only the search term changes. |
| ProductsPage.ProductsScreen.ConfirmAndExclude | src/app/products/page.tsx:85-108 | No request without confirmation; the list loses that id's products only when the delete succeeds. |
| ProductsPage.ProductsScreen.AppendFormFields | src/app/products/page.tsx:113-120 | The render's body grows by the multipart product body, with no company id; nothing else changes. |
| ProductsPage.ProductsScreen.HandleSubmit | src/app/products/page.tsx:110-139 | No selection: nothing happens. Otherwise the fields are appended to the render's body and the update is sent. Success merges the response into the list, closes the modal, clears the selection and shows success. Failure shows the error notice. |
| RegisterPage.WithDraftField | src/app/register/page.tsx:28-31 | The named draft input changes; the others and `imagem` stay. |
| RegisterPage.RegisterScreen.constructor | src/app/register/page.tsx:9-26 | Initial state: no categories, image, edit mode or input. |
| RegisterPage.RegisterScreen.LoadCategories | src/app/register/page.tsx:63-75 | The category list is replaced only when the fetch resolves. |
| RegisterPage.RegisterScreen.ChangeProduct | src/app/register/page.tsx:28-31 | Only the named product input changes. |
| RegisterPage.RegisterScreen.ChangeCategory | src/app/register/page.tsx:33-36 | Only the category name changes. |
| RegisterPage.RegisterScreen.SelectImage | src/app/register/page.tsx:38-49 | Sets the chosen file and the preview the reader produced. |
| RegisterPage.RegisterScreen.RemoveImage | src/app/register/page.tsx:55-61 | Clears the image and its preview. |
| RegisterPage.RegisterScreen.SubmitCategory | src/app/register/page.tsx:78-107 | Only the exact empty name is refused, with an alert. Otherwise an update (in edit mode) or a create is sent. Success clears edit mode and name, then refetches; a failed refetch keeps the list. |
| RegisterPage.RegisterScreen.SubmitProduct | src/app/register/page.tsx:109-140 | Sends the draft with the chosen image; success clears the draft, image and preview; failure changes nothing. |
| RegisterPage.RegisterScreen.HandleEditCategory | src/app/register/page.tsx:142-147 | Enters edit mode for the category and copies its name. |
| RegisterPage.RegisterScreen.CancelEdit | src/app/register/page.tsx:164-169 | Leaves edit mode and clears the name. |
| RegisterPage.RegisterScreen.HandleDeleteCategory | src/app/register/page.tsx:149-162 | No request without confirmation. Otherwise delete then refetch. The alert shows exactly when either fails; the list changes only when both succeed. |
| ProductDraft.WithField | src/app/register-products/page.tsx:54-57 | Only the named form field changes. |
| RegisterProductsPage.CreateDisabledIff | src/app/register-products/page.tsx:288 | The create button is disabled exactly while creating or when the name is blank. |
| RegisterProductsPage.CreatedCategoryIsSelected | src/app/register-products/page.tsx:74-75 | After a category is created, a non-empty selection names the category just appended to the list; the selection is empty exactly when the new category has no id or an empty one. |
| RegisterProductsPage.BlankRefusalIsStricter | src/app/register-products/page.tsx:69 | Every name this screen sends is non-empty, so the register screen would also accept it; " " is refused here but not there. |
| RegisterProductsPage.RegisterProductsScreen.constructor | src/app/register-products/page.tsx:20-35 | Initial state: idle, no categories, no image, modal closed and empty form. |
| RegisterProductsPage.RegisterProductsScreen.Mount | src/app/register-products/page.tsx:37-52 | A visitor goes to /login with no request. Otherwise categories are fetched, and a failure keeps the list. |
| RegisterProductsPage.RegisterProductsScreen.HandleChange | src/app/register-products/page.tsx:54-57 | Only the named form field changes. |
| RegisterProductsPage.RegisterProductsScreen.HandleFileChange | src/app/register-products/page.tsx:59-65 | Sets the file and its object URL preview. |
| RegisterProductsPage.RegisterProductsScreen.RemoveImage | src/app/register-products/page.tsx:150 | Clears the preview and the file. |
| RegisterProductsPage.RegisterProductsScreen.SetCategoryModalOpen | src/app/register-products/page.tsx:202 | Only the modal flag changes. |
| RegisterProductsPage.RegisterProductsScreen.SetNewCategoryName | src/app/register-products/page.tsx:274 | Only the new category name changes. |
| RegisterProductsPage.RegisterProductsScreen.HandleCreateCategory | src/app/register-products/page.tsx:67-84 | A blank name does nothing. Otherwise the untrimmed name is sent while creating. Success appends and selects the category, closes the modal and clears the name. Each outcome shows its notice, and creating ends either way. |
| RegisterProductsPage.RegisterProductsScreen.HandleSubmit | src/app/register-products/page.tsx:86-124 | Without a company: an error and no request. Otherwise the product is created with the company id while loading. Success goes to /products; failure shows the message or fallback. Loading ends. |
| DashboardPage.AveragePrice | src/app/dashboard/page.tsx:53-54 | The average is 0 for no products; otherwise average times count equals the total. |
| DashboardPage.TotalValueBounds | src/app/dashboard/page.tsx:53 | The total lies between count × lowest and count × highest price. |
| DashboardPage.AverageWithinPrices | src/app/dashboard/page.tsx:53-54 | The average price lies between the lowest and highest price. |
| DashboardPage.RecentProducts | src/app/dashboard/page.tsx:144 | `slice(0, 5)` is a prefix of at most five products. |
| DashboardPage.CategoryLabelSpec | src/app/dashboard/page.tsx:145 | The label comes from the first category whose id is the product's category id: its name, or 'N/A' when that name is empty (even if a later match has a name); 'N/A' when no category matches. |
| DashboardPage.RecentRows | src/app/dashboard/page.tsx:144-158 | One row per recent product, with its name, price and category label. |
| DashboardPage.DashboardScreen.constructor | src/app/dashboard/page.tsx:17-19 | Starts with empty lists, loading, and the spinner. |
| DashboardPage.DashboardScreen.Mount | src/app/dashboard/page.tsx:21-42 | A visitor goes to /login and the spinner stays. Otherwise both lists are requested: absent data becomes empty, a failure keeps the lists, loading ends and the summary shows. |
| RegisterCompanyPage.WithField | src/app/register-company/page.tsx:30-33 | Only the named form field changes. |
| RegisterCompanyPage.CompanyCreatedFirst | src/app/register-company/page.tsx:35-87 | The company is created first and exactly once, with at most three requests in all. |
| RegisterCompanyPage.SessionLoginIff | src/app/register-company/page.tsx:42-56 | The session logs in exactly when all steps succeed with both credentials typed and a non-empty token; it then uses that token, which authenticates. |
| RegisterCompanyPage.NavigationFollowsOutcome | src/app/register-company/page.tsx:58-83 | /products exactly when logged in; /login only after creation; navigation exactly with a success notice; error notices are never empty. |
| RegisterCompanyPage.NoCredentialsNoLogin | src/app/register-company/page.tsx:42-76 | Without e-mail or owner password, only the company is created and the owner is sent to /login. |
| RegisterCompanyPage.RegisterCompanyScreen.constructor | src/app/register-company/page.tsx:20-28 | Starts idle with an empty form. |
| RegisterCompanyPage.RegisterCompanyScreen.HandleChange | src/app/register-company/page.tsx:30-33 | Only the named form field changes. |
| RegisterCompanyPage.RegisterCompanyScreen.HandleSubmit | src/app/register-company/page.tsx:35-87 | Performs the sign-up flow. It logs the session in with the flow's token and otherwise leaves the session alone. /products implies an authenticated session. Loading ends. |
| ProductForm.UntouchedEditResendsProduct | src/components/forms/ProductForm/index.tsx:25-30 | A product opened for editing and submitted untouched sends its own name, description, category and shown price text, as an update of itself when it has an id; a fresh form has no category, so an untouched submit is refused. |
| ProductForm.SaveCallCarriesBody | src/components/forms/ProductForm/index.tsx:85-89 | The request carries the built body unchanged; it is an update exactly when the edited product has a non-empty id, and then names that id. |
| ProductForm.SubmittedBodyShape | src/components/forms/ProductForm/index.tsx:67-79 | The body's key order; companyId exactly with a company id; image exactly with a file; each text field's value. |
| ProductForm.ProductFormComponent.constructor | src/components/forms/ProductForm/index.tsx:22-31 | Starts idle with no categories or image, and the initial form data. |
| ProductForm.ProductFormComponent.FetchCategories | src/components/forms/ProductForm/index.tsx:33-39 | Categories are requested; the list changes only on success. |
| ProductForm.ProductFormComponent.HandleChange | src/components/forms/ProductForm/index.tsx:41-44 | Only the named form field changes. |
| ProductForm.ProductFormComponent.HandleFileChange | src/components/forms/ProductForm/index.tsx:46-50 | A chosen file replaces the image; no file changes nothing. |
| ProductForm.ProductFormComponent.HandleSubmit | src/components/forms/ProductForm/index.tsx:52-112 | No category: an alert, no request, no state change. Otherwise the body is sent as an update or a creation while loading. Success shows its message and reports to the parent; failure shows the error's message. Loading ends. |
| UserForm.WithField | src/components/forms/UserForm/index.tsx:39-42 | Only the named form field changes. |
| UserForm.PrefilledEditKeepsPassword | src/components/forms/UserForm/index.tsx:28-37 | A user opened for editing and submitted with the passwords untouched passes the checks, and the update keeps the stored password. |
| UserForm.ValidationIff | src/components/forms/UserForm/index.tsx:48-73 | A new user passes exactly with equal, non-empty passwords and a company id. An edited user passes exactly with an empty or confirmed password. |
| UserForm.MissingPasswordReportedFirst | src/components/forms/UserForm/index.tsx:48-55 | A missing password is reported before any other check. |
| UserForm.RegisteredIdIsCheckedId | src/components/forms/UserForm/index.tsx:108 | Once a new user passes the checks, the `companyId` it is registered with is the company id the check accepted, present and non-empty. |
| UserForm.AssociationMatchesRegistration | src/components/forms/UserForm/index.tsx:113-115 | A new user is associated with the same company it was registered with. |
| UserForm.UpdateSendsConfirmedPassword | src/components/forms/UserForm/index.tsx:80-90 | The update never sends an empty password; once the checks pass, a password it sends equals the confirmation. |
| UserForm.IdlessInitialDataRegisters | src/components/forms/UserForm/index.tsx:48-78 | A user given without an id skips the password and company checks, then is registered as new. |
| UserForm.UserFormComponent.constructor | src/components/forms/UserForm/index.tsx:19-26 | Starts idle with an empty form. |
| UserForm.UserFormComponent.Prefill | src/components/forms/UserForm/index.tsx:28-37 | With a user, the form is prefilled; otherwise unchanged. |
| UserForm.UserFormComponent.HandleChange | src/components/forms/UserForm/index.tsx:39-42 | Only the named form field changes. |
| UserForm.UserFormComponent.HandleSubmit | src/components/forms/UserForm/index.tsx:44-143 | A failed check: its message, no request. Editing sends the update. Creating registers, then associates when both ids are known. Success clears the form only when creating. Failures show the message or fallback. Loading ends. |
| RegisterUserPage.ViewFollowsSession | src/app/register-user/page.tsx:71-74 | After `logout` the form is hidden, with a redirect to /login when a window exists; after `login` with a non-empty token the current form is shown. |
| RegisterUserPage.RegisterUserScreen.constructor | src/app/register-user/page.tsx:18-24 | Starts idle with an empty form. |
| RegisterUserPage.RegisterUserScreen.HandleChange | src/app/register-user/page.tsx:26-29 | Only the named form field changes. |
| RegisterUserPage.RegisterUserScreen.HandleSubmit | src/app/register-user/page.tsx:31-69 | Different passwords: refused with no request. Otherwise the user is registered without a company. Success clears the form; failure shows the message or fallback. Loading ends. |
| CategoryForm.SaveCallsOfBothEditors | src/components/forms/CategoryForm/index.tsx:29-35 | The request carries the typed name unchanged. For a category with a non-empty id it equals the register screen tab's request; for an id-less category this editor creates while that tab sends an update without an id. |
| CategoryForm.CategoryFormComponent.constructor | src/components/forms/CategoryForm/index.tsx:20-22 | The name starts as the edited category's, or empty. |
| CategoryForm.CategoryFormComponent.SetName | src/components/forms/CategoryForm/index.tsx:74 | Only the name changes. |
| CategoryForm.CategoryFormComponent.HandleSubmit | src/components/forms/CategoryForm/index.tsx:24-66 | Sends the save while loading. Success shows its message, reports to the parent and clears the name only when creating. Failure keeps the name. Loading ends. |
| FormSchema.StringIssues | src/schemas/formSchema.ts:4-8 | A string rule raises no issue exactly for a string of the minimum UTF-16 length; otherwise one issue at that key, too-small when it is a string. |
| FormSchema.OptionalIsStringOrUndefined | src/schemas/formSchema.ts:7 | The optional image is checked like a required string of minimum length zero, except that `undefined` passes. |
| FormSchema.SafeParseSuccessIff | src/schemas/formSchema.ts:3-9 | Parsing succeeds exactly for an object meeting every rule, and returns the input's own values. |
| FormSchema.IssuesFollowKeyOrder | src/schemas/formSchema.ts:3-9 | At most four issues, none for price, in the schema's key order. |
| FormSchema.NameRuleLooserThanMessage | src/schemas/formSchema.ts:4 | A one-letter name passes, although the message asks for more than ten characters. |
| FormSchema.AnyPriceAccepted | src/schemas/formSchema.ts:5 | Any price value passes and is kept as given. |

## Left out

- Network, `localStorage`, cookies, timers, `FileReader`, `URL.createObjectURL`, router
  navigation, SweetAlert dialogs and `window.confirm` are not performed. Each appears as a
  parameter (an outcome, a confirmation flag, a preview string) or as a returned value (a
  request, notice, alert or route).
- React scheduling is left out: effects run when a method is called, and asynchronous
  updates interleave only in handler order. The products page re-fetches whenever
  `formData` or `selectedProduct` changes; the model exposes that fetch as
  `ProductsScreen.FetchData` but does not schedule it.
- Numbers: `parseFloat`, `Number`, `toString` and currency formatting are not modelled.
  Prices travel as the typed text, and a product's price is an exact real, so NaN and
  floating-point rounding are absent from `DashboardPage.AveragePrice`.
- `Text.ToLower` lower-cases only ASCII and Latin-1 letters; the rest of Unicode case
  mapping is not modelled.
- `jwtDecode` is an outcome parameter carrying the token's `sub`. Token parsing is not
  modelled.
- The products page's merge treats the response as optional fields. A field explicitly set
  to `null` in the response is not modelled.
- The service clients' own error wrapping, URLs and argument shapes are not modelled:
  `src/services/*` is context. The screens call `createProduct` with two arguments although
  its declaration takes one; the model records the request as the screens issue it.
- Presentation only, not modelled: the register screen's tab switch (`activeTab`),
  `triggerFileInput`, loading spinners other than the dashboard's, and image URLs.
- The zod issue messages for wrong types, and zod's handling of unknown keys beyond
  dropping them, are not modelled.
- `Outcomes.Thrown`: a thrown `null` or `undefined` is not modelled. Every rejection is an
  `Error` or another object, as the service wrappers throw; for a thrown `null` the
  `error.message` read would itself raise a `TypeError` inside the `catch`, which the model
  does not represent.
- `Outcomes.MessageIdiomsDiffer`: states the difference only for the thrown values above;
  a `null` or `undefined` rejection, and a `message` property that is truthy but not a
  string, are outside it.
- The login page, header, layout and the pages under `src/app/(private)` are not part of
  this model.
