# Product inventory client — a Dafny model of its view state

The client is a React front end for a small product catalogue: a list of
products fetched from an HTTP API, an editor that creates or updates one
product (text fields, the stored image URLs that survive, newly staged
files), a delete flow with a confirmation, and sign-in and registration
forms. Every piece of client logic is a small, sequential state machine
driven by clicks and by the outcomes of network calls. This project models
those machines in Dafny, one module per source component, and proves what
each handler does to the component state.

How the model is built:

- Each component is a `class` whose fields are its state variables. Each
  event handler is a method with a `modifies` clause. Its `ensures` gives
  each field it may change, in terms of the old state and the inputs. Each
  root-component method also states, in its own clauses, the trigger value
  the list's refresh effect last ran for. The editor's key and its last-seen
  selection are fixed by the invariant `Valid()`.
- The rules the handlers follow are pure functions over values, with
  lemmas about them. Examples are the draft seeded from a selection, the
  validation error map, filter-by-index removal, the multipart body, and
  the list's fetch and delete transitions.
- Every network call is an input `ServerReply`: a status with an optional
  JSON body, or a transport failure with its message. `Common.Settle`
  models the HTTP client's `validateStatus` rule. It decides whether the
  awaited call resolves or throws. The default accepts any 2xx status; the
  delete call accepts 200 and 404.
- `window.confirm` is a `bool` parameter. `localStorage["token"]` and the
  auth context's flag are the two fields of `SessionModel.Session`. The
  router's `navigate` is recorded in a `navigatedTo` field. `isNaN` is a
  parameter `isNumber: string -> bool`.
- The root component (`AppModel.App`) and the dashboard
  (`DashboardModel.Dashboard`) hold the editor and the list as objects.
  `App` re-keys the editor by the selected product's id, and a new key
  means a freshly constructed editor. The dashboard keeps one editor and
  passes it no completion callback.

The model follows the code, not the intended design, in these places:

- Picking files replaces the staged list; it does not append to it.
- A negative price passes validation; only emptiness and `isNumber` are
  checked.
- A 404 on delete sets the not-found message, and the list's `error` is
  never cleared afterwards. The list therefore stays on the error view for
  good (`ProductListModel.ErrorViewIsFinal`).
- A failed submission is only logged. The draft is kept, and nothing is
  shown to the user.
- The dashboard's refresh counter never changes, and its completed
  submissions neither clear the selection nor refresh the list.
- A sign-in reply of 200 without a `token` field stores the text
  "undefined", because local storage turns the missing value into a string.

## Model

| member | source | states |
|---|---|---|
| Common.Settle | src/components/productList.jsx:25-34 | a reply resolves the awaited call iff it is a response whose status the validator accepts; a rejected response still carries its status and body, a transport failure carries none and keeps its message |
| Common.ServerErrorOr | src/components/logIn.jsx:37 | `err.response?.data?.error \|\| fallback`: when the rejection carries a body whose `error` is a non-empty string, exactly that text; when it is empty or absent, or there is no response or body, the fallback; never empty when the fallback is not |
| Common.TrimEmptyIffBlank | src/components/productForm.jsx:31-32 | `!s.trim()` holds exactly when every character of `s` is ECMAScript whitespace |
| ProductFormModel.WithField | src/components/productForm.jsx:40 | the edited field takes the new value; the other two fields and both image lists are unchanged |
| ProductFormModel.ValidIffNoErrors | src/components/productForm.jsx:29-36 | validation yields an empty error map iff SKU and name each contain a non-whitespace character and the price is non-empty and numeric (no sign check); every reported error has a non-empty message |
| ProductFormModel.BuildErrors | src/components/productForm.jsx:30-33 | the sequentially built `newErrors` holds exactly the failing fields, each with its fixed message |
| ProductFormModel.ClearError | src/components/productForm.jsx:41 | editing a field keeps the set of error keys, blanks that field's entry if present, and leaves every other entry as it was |
| ProductFormModel.DropIndex | src/components/productForm.jsx:48-60 | filtering by index removes exactly position `i` and keeps the rest in order; an index outside the list removes nothing |
| ProductFormModel.BuildPayload | src/components/productForm.jsx:66-71 | the two append loops build exactly `sku`, `name`, `price`, one `existingImages` entry per surviving URL in order, then one `images` entry per staged file in order |
| ProductFormModel.PayloadDecodes | src/components/productForm.jsx:66-71 | reading the body back by key returns one value for each text field, the surviving URLs in order, the staged files in order, and nothing under the wrong key; its length is 3 plus both list lengths |
| ProductFormModel.SeededPayload | src/components/productForm.jsx:17-23 | submitting a freshly seeded draft sends back the product's SKU, name and price and exactly its stored image URLs (or none when absent), with no files |
| ProductFormModel.RemovalPayload | src/components/productForm.jsx:48-60 | after removing position `i` from one list, the body carries that list without position `i`, in order, and the other list unchanged |
| ProductFormModel.SubmitRequest | src/components/productForm.jsx:74-77 | PUT to the selected product's own path iff a product is selected, otherwise POST to the collection path; the body is passed through |
| ProductFormModel.SubmitFailureMessage | src/components/productForm.jsx:97-101 | when the error carries a response with a body, the logged value is that body's `message` field (None, logged as undefined, when the field is absent); otherwise it is the error's own message |
| ProductFormModel.ProductForm.constructor | src/components/productForm.jsx:5-27 | a mounted editor holds the draft seeded from its selection (empty in create mode), no errors and an empty file input |
| ProductFormModel.ProductForm.ReceiveSelection | src/components/productForm.jsx:15-27 | a changed selection replaces the draft with the seeded one; the errors and the file input are left as they were |
| ProductFormModel.ProductForm.HandleChange | src/components/productForm.jsx:38-42 | only the named field changes, and its error entry, if set, is blanked with the key kept |
| ProductFormModel.ProductForm.HandleFileChange | src/components/productForm.jsx:44-46 | the staged list becomes the picked files (replaced, not appended); the URLs, text fields and errors are unchanged |
| ProductFormModel.ProductForm.RemoveImage | src/components/productForm.jsx:48-60 | the chosen list loses position `index`; the other list, the text fields and the errors are untouched |
| ProductFormModel.ProductForm.ValidateForm | src/components/productForm.jsx:29-36 | the error map is replaced by exactly the failing fields, and the result is true iff the draft is accepted |
| ProductFormModel.ProductForm.HandleSubmit | src/components/productForm.jsx:62-103 | an invalid draft sends nothing; a valid one sends the payload to the chosen target; success empties the draft and the file input and calls the callback (or logs the missing-callback error); failure keeps the draft and only logs |
| ProductListModel.ListedProducts | src/components/productList.jsx:13 | the listed products are `data.data` when present and empty otherwise |
| ProductListModel.AfterFetch | src/components/productList.jsx:9-20 | a fetch ends with `loading` false; success replaces the products and keeps `error`; failure keeps the products and sets the load message; an error is never cleared |
| ProductListModel.ClassifyMatchesClient | src/components/productList.jsx:32-41 | a confirmed delete request resolves exactly for 200 and 404, and 200 is the plain success case |
| ProductListModel.AfterDelete | src/components/productList.jsx:22-46 | a declined confirmation changes nothing; 200 ends as the refetch leaves the old state (error untouched); 404 sets the not-found message and then ends as the refetch leaves that state, so an error remains; any other status or a transport failure sets the delete message and changes nothing else |
| ProductListModel.Render | src/components/productList.jsx:53-73 | the loading view iff loading, else the error view iff an error is set, else the list of products |
| ProductListModel.NotFoundLeavesBanner | src/components/productList.jsx:38-40 | after a 404 on delete the error view is shown even though the list was refetched |
| ProductListModel.ErrorPersists | src/components/productList.jsx:9-46 | once an error is set, any sequence of fetches, retries and deletes still ends with an error |
| ProductListModel.ErrorViewIsFinal | src/components/productList.jsx:57-68 | once the error view is on screen, no later fetch, retry or delete brings the product list back |
| ProductListModel.ProductList.constructor | src/components/productList.jsx:5-7 | the first render holds no products, is loading and has no error |
| ProductListModel.ProductList.FetchProducts | src/components/productList.jsx:9-20 | the new state is the fetch transition of the old one |
| ProductListModel.ProductList.HandleDelete | src/components/productList.jsx:22-46 | the DELETE goes to the product's path iff confirmed; a refetch happens iff the outcome is 200 or 404; the new state is the delete transition |
| ProductListModel.ProductList.RefreshEffect | src/components/productList.jsx:49-51 | a fetch runs iff the trigger's value differs from the one the effect last ran for (or on mount) |
| LoginModel.WithCredential | src/components/logIn.jsx:16-21 | only the named field changes |
| LoginModel.StoredTokenText | src/components/logIn.jsx:32 | the stored value is the body's token, or the text "undefined" when there is none |
| LoginModel.LoginEffectOf | src/components/logIn.jsx:28-37 | only status 200 signs in; any other 2xx status changes nothing; every rejection shows the server's `error` text or the fixed message, never empty |
| LoginModel.LoginForm.constructor | src/components/logIn.jsx:7-12 | the form starts with empty fields, not loading and with no error |
| LoginModel.LoginForm.HandleChange | src/components/logIn.jsx:16-21 | only the named field changes |
| LoginModel.LoginForm.BeginSubmit | src/components/logIn.jsx:25-26 | the form is loading and its error is cleared |
| LoginModel.LoginForm.FinishSubmit | src/components/logIn.jsx:28-40 | sign-in stores the token, authenticates and navigates to the product page; other outcomes leave the session and the route alone; loading always ends false |
| LoginModel.LoginForm.HandleSubmit | src/components/logIn.jsx:23-41 | the credentials are posted to the sign-in path; a 200 stores the token, authenticates and navigates with the error empty; any other 2xx changes nothing but clears the error; a rejection shows its message and leaves the session and the route alone; loading ends false |
| RegisterModel.WithRegisterField | src/components/registationForm.jsx:15-20 | only the named field changes; the other three keep their values |
| RegisterModel.RegisterEffectOf | src/components/registationForm.jsx:28-41 | only status 201 registers; any other 2xx status changes nothing; every rejection shows the server's `error` text or the fixed message, never empty |
| RegisterModel.RegisterForm.constructor | src/components/registationForm.jsx:5-13 | four empty fields, not loading, no error, no success message |
| RegisterModel.RegisterForm.HandleChange | src/components/registationForm.jsx:15-20 | only the named field changes |
| RegisterModel.RegisterForm.BeginSubmit | src/components/registationForm.jsx:24-26 | the form is loading and both messages are cleared |
| RegisterModel.RegisterForm.FinishSubmit | src/components/registationForm.jsx:28-44 | a 201 sets the success message and empties all four fields; a rejection sets the error and keeps the fields; loading always ends false; the class has no access to the session |
| RegisterModel.RegisterForm.HandleSubmit | src/components/registationForm.jsx:22-45 | the form data is posted to the registration path; a 201 ends with the success message, empty fields and no error; any other 2xx ends with both messages empty and the fields kept; a rejection ends with the error shown, no success message and the fields kept; loading ends false |
| AppModel.FormKey | src/App.jsx:22 | the key is the selected product's id when it is non-empty, otherwise "create" |
| AppModel.KeysSeparateSelections | src/App.jsx:22 | for selections whose ids are neither empty nor the text "create", two selections get the same key iff both are create mode or both have the same id (an entry whose id is empty or "create" shares the create-mode key) |
| AppModel.Heading | src/App.jsx:19 | the heading is "Edit Product" iff a product is selected, otherwise "Create Product" |
| AppModel.App.constructor | src/App.jsx:6-7 | no selection, the trigger false, an empty editor and a loading list |
| AppModel.App.ListRefreshEffect | src/App.jsx:33-36 | the list's refresh effect fetches iff it has not yet run, and afterwards remembers the current trigger, so a second run before the next submission fetches nothing |
| AppModel.App.RenderForm | src/App.jsx:21-25 | a new key mounts a fresh editor seeded from the selection with no errors; the same key keeps the editor, whose effect reseeds the draft only when the selection changed |
| AppModel.App.Edit | src/App.jsx:33-36 | Edit selects the product; a new key mounts a fresh editor with the seeded draft, no errors and an empty file input; the same key keeps the editor, reseeds its draft only if the selection changed, and keeps its errors and file input |
| AppModel.App.HandleSubmitSuccess | src/App.jsx:9-12 | the trigger is negated and the selection is cleared |
| AppModel.App.SubmitForm | src/App.jsx:21-25 | a completed submission flips the trigger, clears the selection, leaves an empty editor with no errors and no staged files, refetches the list, whose effect now remembers the new trigger, and logs nothing; otherwise the selection, the trigger, the list and its effect memory stay, the same editor keeps its draft and file input, its errors become the validation result, and the failure message (if a request was sent) is logged |
| AppModel.App.Delete | src/App.jsx:33-36 | a delete goes through the list's delete transition and leaves the selection and the list's effect memory alone |
| AppModel.App.Retry | src/components/productList.jsx:61-63 | Retry runs the fetch, the error view stays, and the list's effect memory is unchanged |
| SessionModel.Session.constructor | src/components/ProductDashboard.jsx:7 | the session holds the given stored token and authentication flag, as the auth context and local storage supply them |
| DashboardModel.Dashboard.constructor | src/components/ProductDashboard.jsx:10-13 | no selection, the counter 0, an empty editor and a loading list |
| DashboardModel.Dashboard.ListRefreshEffect | src/components/ProductDashboard.jsx:42-45 | the list's refresh effect fetches iff it has not yet run, and afterwards remembers counter 0; since the counter never changes, it never fetches again through the trigger |
| DashboardModel.Dashboard.Edit | src/components/ProductDashboard.jsx:33-37 | with no key the same editor reseeds its draft on a changed selection and keeps its stale validation errors |
| DashboardModel.Dashboard.SubmitForm | src/components/ProductDashboard.jsx:33-37 | the errors become the validation result; a successful submission empties the draft and the file input and logs the missing-callback error; otherwise the draft and file input stay and the failure message (if a request was sent) is logged; the selection, the counter, the list and its effect memory never change |
| DashboardModel.Dashboard.HandleLogout | src/components/ProductDashboard.jsx:15-18 | the stored token is removed and the session is not authenticated |
| DashboardModel.Dashboard.Delete | src/components/ProductDashboard.jsx:42-45 | a delete goes through the list's delete transition and leaves the list's effect memory alone |
| DashboardModel.Dashboard.Retry | src/components/productList.jsx:61-63 | Retry runs the fetch, the error view stays, and the list's effect memory is unchanged |

## Left out

- The HTTP server, the base URLs (`http://localhost:5000`, `VITE_API_URL`), request headers and the multipart encoding. The model keeps the method, the path and the ordered list of body entries.
- Overlapping requests and their order of arrival (last response wins). Each handler is one atomic transition, and every awaited reply is an input.
- ProductListModel.ProductList.FetchProducts: the loading view shown while a later fetch is pending is not a state of its own. The method sets `loading` first and clears it last, but a caller only sees the end state. The pending state is observable for the mount fetch (the constructor) and in the sign-in and registration forms (`BeginSubmit`).
- JS number coercion. `isNaN` is the parameter `isNumber`. `price` is always a string, so a numeric price sent by the server is not modelled: a numeric 0 would fail `!formData.price` there, while the model only sees strings.
- React's effect comparison by object identity. A selection counts as changed when its value differs. A re-fetched but equal product object does not reseed the draft in the model, although it does in the browser.
- MissingCallbackMessage: the text of the TypeError raised by calling the absent completion callback depends on the JavaScript engine and the build; the model uses the unminified V8 wording, "onSubmitSuccess is not a function".
- `console.error`. The submission's logged message is returned as a value. The fetch and delete handlers log to the console, and that output is not modelled.
- The auth context provider (src/context/AuthContext is not part of this model). Its starting state is a constructor parameter of `SessionModel.Session`. The route gate is not modelled either.
- Markup: JSX, styling, image previews (`URL.createObjectURL`), the `Link` elements and the forgot-password link.
- The browser-enforced `required` and `minLength` attributes of the sign-in and registration inputs.
- The `setSelectedProduct` and `setRefreshTrigger` props that the dashboard passes to the editor. The editor never reads them, so the model does not pass them.
