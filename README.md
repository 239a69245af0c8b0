# Admin console state model

A model of the client-side logic of an e-commerce admin console written in React. It
covers:

- the shared admin context: its state cells and the operations that call the backend and
  update those cells;
- the product-specification editors of the add and update screens, and the folding of
  their rows into a specification object;
- the product list's search filter and its check-box patches;
- the cart, comment and notification screens, with their "action, then best-effort
  notification" sequences;
- the search box;
- the login and logout token gate.

Each backend call is one parameter, not a network exchange:

- `Outcome` is a success flag with its payload, a reported failure with its message, or a
  rejected promise.
- `Call` is either a resolved or a rejected promise, for calls whose response the code
  never inspects.

The effects a handler has are recorded in a `Browser` object:

- the requests sent;
- the toasts shown;
- the persisted `aToken` entry of local storage;
- the router's location.

Modules:

- **Sequences.** The list operations the screens use: `filter`, `splice`, and the
  subsequence relation.
- **Text.** ASCII `trim`, `toLowerCase`, `includes`, and the decimal rendering of a count.
- **Platform.** Call outcomes, requests, toasts and the browser.
- **Session.** The token gate: the in-memory token and its persisted copy.
- **AdminContext.** The shared store, one class whose fields are the context's state cells.
- **UpdateProduct, AddProduct, ProductsList, AllCarts, Comments, Notifications, Search,
  Login, Navbar.** One module per screen or component. Each is a class holding the
  component's own state and the store.

## Model

| member | source | states |
|---|---|---|
| Sequences.Filter | src/pages/ProductsList.jsx:70 | `filter` keeps only elements of the input that pass the test, and keeps every element of the input that passes it |
| Sequences.FilterMultiplicity | src/pages/ProductsList.jsx:70 | each element that passes occurs in the result as often as in the input, and no other element occurs |
| Sequences.FilterIsSubsequence | src/pages/ProductsList.jsx:57 | a filtered list is the input with some elements left out, in the original order |
| Sequences.RemoveAt | src/pages/UpdateProduct.jsx:97-101 | `splice(i, 1)`: one element fewer, elements before `i` kept, later ones shifted down by one; an index past the end changes nothing |
| Sequences.RemoveAtIsSubsequence | src/pages/UpdateProduct.jsx:97-101 | removing a row keeps the others in order |
| Text.Trim | src/components/Search.jsx:15 | `trim()` is the string with a whitespace-only prefix and a whitespace-only suffix cut off; it is empty exactly when the string is all whitespace, and otherwise starts and ends with a non-space |
| Text.TrimIdempotent | src/components/Search.jsx:15 | trimming a trimmed string changes nothing |
| Text.Lower | src/pages/ProductsList.jsx:58-61 | `toLowerCase()` keeps the length and maps each letter A-Z to its lower case, leaving other characters alone |
| Text.LowerIdempotent | src/pages/ProductsList.jsx:58-61 | lower-casing twice is lower-casing once |
| Text.Contains | src/pages/ProductsList.jsx:58-61 | `includes(t)` holds exactly when `t` occurs at some position |
| Text.Decimal | src/pages/AllCarts.jsx:41 | the rendering of `totalItems` in a template literal is a non-empty digit string without a leading zero |
| Text.DecimalRoundTrip | src/pages/AllCarts.jsx:57 | reading the rendered digits back gives the count |
| Session.Gate | src/App.jsx:22-44 | the admin shell is rendered exactly when the token is non-empty, the Login screen otherwise |
| Session.InitialToken | src/context/AdminContext.jsx:8 | the token starts as the persisted value when there is one, and '' otherwise |
| Session.AfterLogin | src/pages/Login.jsx:17-28 | a success flag persists the returned token and holds it in memory; a reported failure or a rejection changes neither |
| Session.AfterLogout | src/components/Navbar.jsx:12-16 | logout leaves the token empty; a non-empty token is also removed from storage; an empty one touches nothing |
| Session.LogoutIdempotent | src/components/Navbar.jsx:12-16 | logging out twice has the effect of logging out once |
| Session.LogoutShowsLogin | src/components/Navbar.jsx:14-15 | after logout the Login screen is rendered |
| Session.MirrorPreserved | src/pages/Login.jsx:19-20 | memory and storage agree after a login and after a logout when they agreed before |
| Session.LoginOpensShell | src/pages/Login.jsx:17-20 | a successful login opens the admin shell exactly when the returned token is non-empty |
| AdminContext.WithoutCart | src/context/AdminContext.jsx:74 | a cart is left exactly when it was in the list and its id differs |
| AdminContext.WithoutCartCounts | src/context/AdminContext.jsx:74 | every cart whose id differs is left as many times as it occurred, and none with the id is left |
| AdminContext.WithoutCartKeepsOrder | src/context/AdminContext.jsx:74 | the remaining carts keep their order |
| AdminContext.ReplyNotificationMentions | src/context/AdminContext.jsx:214 | the reply notification names the product and quotes the reply, after the fixed opening and before the closing full stop |
| AdminContext.ReplyNotificationInjective | src/context/AdminContext.jsx:214 | for one product, different replies give different notification texts |
| AdminContext.AdminStore.constructor | src/context/AdminContext.jsx:8-15 | the cells start with the persisted token, empty lists, `dashData` false and an empty search |
| AdminContext.AdminStore.GetProducts | src/context/AdminContext.jsx:17-29 | products are replaced only on a success flag; otherwise they are unchanged and the message is toasted |
| AdminContext.AdminStore.GetCarts | src/context/AdminContext.jsx:30-39 | carts are replaced only with truthy data; falsy data is ignored with no toast |
| AdminContext.AdminStore.GetComments | src/context/AdminContext.jsx:40-52 | comments are replaced only with truthy data; null data raises a caught TypeError |
| AdminContext.AdminStore.ChangeAvailability | src/context/AdminContext.jsx:53-66 | no state cell changes; the toast follows the response |
| AdminContext.AdminStore.RemoveCart | src/context/AdminContext.jsx:67-79 | exactly the carts with that id are dropped whenever the request resolves, even with falsy data; a rejection leaves the carts unchanged |
| AdminContext.AdminStore.DeleteProduct | src/context/AdminContext.jsx:80-88 | no state cell changes; success or the error is toasted |
| AdminContext.AdminStore.ChangeBestsellerStatus | src/context/AdminContext.jsx:89-101 | no state cell changes; the toast follows the response |
| AdminContext.AdminStore.GetDashData | src/context/AdminContext.jsx:102-116 | the dashboard data is set only on a success flag |
| AdminContext.AdminStore.GetAllReplies | src/context/AdminContext.jsx:117-131 | replies are replaced only with truthy data; null data gives "No data" and then a caught TypeError |
| AdminContext.AdminStore.ReplyComment | src/context/AdminContext.jsx:132-148 | settles with the response when it is truthy, with null when it is falsy, and rethrows a rejection |
| AdminContext.AdminStore.EditReply | src/context/AdminContext.jsx:149-157 | never returns a value and never throws; only the toast depends on the response |
| AdminContext.AdminStore.DeleteReply | src/context/AdminContext.jsx:158-174 | never returns a value and never throws; only the toast depends on the response |
| AdminContext.AdminStore.ChangeCartStatus | src/context/AdminContext.jsx:175-196 | returns true exactly on a success flag; a failure toasts its message or "Failed to change status", a rejection "Server Error" |
| AdminContext.AdminStore.NotifyChangeStatusCart | src/context/AdminContext.jsx:197-209 | sends one notification to the user; a rejection is only toasted |
| AdminContext.AdminStore.CreateReplyNotification | src/context/AdminContext.jsx:210-221 | sends the reply notification text to the author; a rejection toasts "Error sending notification" |
| UpdateProduct.OrEmpty | src/pages/UpdateProduct.jsx:42-48 | `value \|\| ''` is '' exactly for a missing or falsy value, and the value itself otherwise |
| UpdateProduct.LoadForm | src/pages/UpdateProduct.jsx:40-49 | every field of the form is the product's field, or '' when it is missing or falsy |
| UpdateProduct.LoadRows | src/pages/UpdateProduct.jsx:51-55 | one row per specification entry, in order, with the entry's key and value and `isNew` false |
| UpdateProduct.SpecObject | src/pages/UpdateProduct.jsx:112-115 | the submitted object never has an empty key, and never a `__proto__` key, whose assignment on `{}` is ignored |
| UpdateProduct.SpecObjectKeys | src/pages/UpdateProduct.jsx:112-115 | the object's keys are exactly the non-empty row keys other than `__proto__`: rows with an empty key are skipped, rows with an empty value are kept |
| UpdateProduct.SpecObjectLastWins | src/pages/UpdateProduct.jsx:112-115 | when keys repeat, the last row with the key gives its value, for every key that is stored at all |
| UpdateProduct.RoundTrip | src/pages/UpdateProduct.jsx:51-55 | submitting freshly loaded rows gives back the fetched object, when it has no empty key, except that a `__proto__` entry is lost |
| UpdateProduct.ProtoKeyLost | src/pages/UpdateProduct.jsx:112-115 | a fetched `__proto__` specification is loaded as a row and sent back as an empty object |
| UpdateProduct.EmptyKeyDropped | src/pages/UpdateProduct.jsx:113 | an entry with an empty key is never sent back |
| UpdateProduct.LoadedKeysOfLoad | src/pages/UpdateProduct.jsx:51-55 | the loaded rows carry the fetched keys in order |
| UpdateProduct.LoadedKeysAppendNew | src/pages/UpdateProduct.jsx:81-83 | appending a new row leaves the loaded rows' keys alone |
| UpdateProduct.LoadedKeysUpdate | src/pages/UpdateProduct.jsx:85-95 | editing a value, or the key of a new row, leaves the loaded rows' keys alone |
| UpdateProduct.LoadedKeysRemove | src/pages/UpdateProduct.jsx:97-101 | removing a row keeps the other loaded keys in order |
| UpdateProduct.UpdateProductForm.constructor | src/pages/UpdateProduct.jsx:16-30 | the form starts empty, with no rows, no image, no fetched keys, and loading |
| UpdateProduct.UpdateProductForm.FetchProduct | src/pages/UpdateProduct.jsx:32-66 | a fetched product fills the form and one non-new row per entry, and its keys become the fetched keys the loaded rows must keep in order; a failure keeps the form and the fetched keys and is toasted; loading ends either way |
| UpdateProduct.UpdateProductForm.ChangeInput | src/pages/UpdateProduct.jsx:68-71 | only the named field takes the typed text; the fetched keys are unchanged and the loaded rows still carry them in order |
| UpdateProduct.UpdateProductForm.ChangeImage | src/pages/UpdateProduct.jsx:73-79 | only the picked image changes; the fetched keys are unchanged and the loaded rows still carry them in order |
| UpdateProduct.UpdateProductForm.AddSpec | src/pages/UpdateProduct.jsx:81-83 | exactly one blank new row is appended and earlier rows are unchanged; the fetched keys are unchanged and the loaded rows still carry them in order |
| UpdateProduct.UpdateProductForm.ChangeSpecKey | src/pages/UpdateProduct.jsx:85-89 | only the key of row `i` changes, and only on a new row, since the key input of a loaded row is disabled (line 195); the fetched keys are unchanged and the loaded rows still carry them in order |
| UpdateProduct.UpdateProductForm.ChangeSpecValue | src/pages/UpdateProduct.jsx:91-95 | only the value of row `i` changes; the length and every other row are unchanged; the fetched keys are unchanged and the loaded rows still carry them in order |
| UpdateProduct.UpdateProductForm.RemoveSpec | src/pages/UpdateProduct.jsx:97-101 | exactly row `i` is removed and the others keep their order; the fetched keys are unchanged and the loaded rows still carry them in order |
| UpdateProduct.UpdateProductForm.Submit | src/pages/UpdateProduct.jsx:103-132 | one update request carrying the rows folded into an object; success navigates to the product list; a failure toasts its message or "Failed to update product" |
| AddProduct.KeptIffTrimmed | src/pages/AddProduct.jsx:40 | a row passes `key.trim() && value.trim()` exactly when neither its key nor its value is blank |
| AddProduct.SpecificationsObjectKeys | src/pages/AddProduct.jsx:38-43 | the object's keys are exactly the untrimmed keys of rows whose key and value are both non-blank, other than `__proto__`, whose assignment on `{}` is ignored |
| AddProduct.SpecificationsObjectLastWins | src/pages/AddProduct.jsx:38-43 | among kept rows with the same key, the last one's untrimmed value is stored, for every key that is stored at all |
| AddProduct.SpecificationsObjectNonBlank | src/pages/AddProduct.jsx:38-43 | no blank key and no blank value reaches the object |
| AddProduct.SpecificationsObjectStep | src/pages/AddProduct.jsx:39-42 | one more row is assigned into the object exactly when it is kept, an assignment that a `__proto__` key leaves without effect |
| AddProduct.BuildSpecificationsObject | src/pages/AddProduct.jsx:38-43 | the `forEach` loop builds exactly the specification object of the rows |
| AddProduct.InitialRowsSendNothing | src/pages/AddProduct.jsx:15 | the blank starting row contributes nothing to the object |
| AddProduct.AddProductForm.constructor | src/pages/AddProduct.jsx:8-16 | the form starts with category 'Laptop', exactly one blank row, no image, and not loading |
| AddProduct.AddProductForm.SetInput | src/pages/AddProduct.jsx:115-144 | only the named input changes |
| AddProduct.AddProductForm.SelectImage | src/pages/AddProduct.jsx:108 | only the image changes |
| AddProduct.AddProductForm.ChangeSpecification | src/pages/AddProduct.jsx:74-78 | only the named field of row `i` changes; the length and the other rows are unchanged |
| AddProduct.AddProductForm.AddSpecificationField | src/pages/AddProduct.jsx:80-84 | one blank row is appended and the existing rows are unchanged |
| AddProduct.AddProductForm.RemoveSpecificationField | src/pages/AddProduct.jsx:86-92 | row `i` is removed, as `RemoveAt` specifies, only while more than one row is left, so there is always at least one row |
| AddProduct.AddProductForm.Submit | src/pages/AddProduct.jsx:20-72 | without an image: one error toast, no request, loading false; otherwise one request with the folded rows; success resets every field, failure keeps them; loading is false at the end |
| AddProduct.AddProductForm.Reset | src/pages/AddProduct.jsx:55-62 | after a reported success every field is back to the mounted form: category 'Laptop' and one blank row |
| ProductsList.SearchFilter | src/pages/ProductsList.jsx:53-65 | an empty term shows the whole list; otherwise a product is shown exactly when it is in the list and its lower-cased name, category, brand or description contains the lower-cased term |
| ProductsList.SearchFilterCounts | src/pages/ProductsList.jsx:57-63 | with a term, each matching product is shown as often as it occurs in the list, and no other product is shown |
| ProductsList.SearchFilterKeepsOrder | src/pages/ProductsList.jsx:57 | the filtered list is a subsequence of the product list |
| ProductsList.SearchIgnoresCase | src/pages/ProductsList.jsx:58-61 | lower-casing the term does not change the result |
| ProductsList.SearchExample | src/pages/ProductsList.jsx:57-63 | the term "lap" over a phone and a laptop keeps only the laptop |
| ProductsList.ToggleAvailable | src/pages/ProductsList.jsx:96-100 | `available` flips exactly on products with the item's id; every other field and product is unchanged |
| ProductsList.ToggleBestseller | src/pages/ProductsList.jsx:112-116 | `bestseller` flips exactly on products with the item's id; every other field and product is unchanged |
| ProductsList.ToggleAvailableTwice | src/pages/ProductsList.jsx:96-100 | toggling availability twice restores the list |
| ProductsList.ToggleBestsellerTwice | src/pages/ProductsList.jsx:112-116 | toggling bestseller twice restores the list |
| ProductsList.WithoutProduct | src/pages/ProductsList.jsx:70 | a product is left exactly when it was in the list and its id differs |
| ProductsList.WithoutProductCounts | src/pages/ProductsList.jsx:70 | every product whose id differs is left as many times as it occurred, and none with the id is left |
| ProductsList.WithoutProductKeepsOrder | src/pages/ProductsList.jsx:70 | the remaining products keep their order |
| ProductsList.ProductsListView.constructor | src/pages/ProductsList.jsx:20-21 | the modal starts closed with no product selected |
| ProductsList.ProductsListView.FetchProducts | src/pages/ProductsList.jsx:39-51 | products are fetched only while a token is held |
| ProductsList.ProductsListView.SyncFilter | src/pages/ProductsList.jsx:53-65 | the filtered list becomes the search filter of the products |
| ProductsList.ProductsListView.AskDelete | src/pages/ProductsList.jsx:125-128 | a card's delete button selects its product and opens the modal |
| ProductsList.ProductsListView.CancelDelete | src/pages/ProductsList.jsx:146 | the modal's cancel button closes it and keeps the selection |
| ProductsList.ProductsListView.HandleDelete | src/pages/ProductsList.jsx:67-74 | with a selection, every product with its id is removed whatever the response, the modal closes and the selection clears; without one nothing happens |
| ProductsList.ProductsListView.ToggleAvailability | src/pages/ProductsList.jsx:94-101 | the request is sent and the list is patched whatever the response |
| ProductsList.ProductsListView.ToggleBestsellerBox | src/pages/ProductsList.jsx:110-117 | the request is sent and the list is patched whatever the response |
| AllCarts.CartHeadMentions | src/pages/AllCarts.jsx:41 | a cart notification names the cart id, the item count and the item |
| AllCarts.StatusTextMentions | src/pages/AllCarts.jsx:57 | the status notification names the cart, the item, the count and the new status |
| AllCarts.DeletedTextMentions | src/pages/AllCarts.jsx:41 | the deletion notification names the cart, the item and the count |
| AllCarts.StatusTextInjective | src/pages/AllCarts.jsx:57 | for one cart, different statuses give different notification texts |
| AllCarts.AllCartsView.constructor | src/pages/AllCarts.jsx:15-16 | the refresh flag starts false and no cart is selected |
| AllCarts.AllCartsView.FetchCarts | src/pages/AllCarts.jsx:18-29 | carts are fetched only while a token is held |
| AllCarts.AllCartsView.HandleDeleteClick | src/pages/AllCarts.jsx:31-33 | the clicked cart becomes the selection |
| AllCarts.AllCartsView.CancelDelete | src/pages/AllCarts.jsx:150 | the confirmation's cancel button clears the selection and leaves the refresh flag |
| AllCarts.AllCartsView.ConfirmDelete | src/pages/AllCarts.jsx:35-50 | nothing happens without a selection; otherwise the cart is removed and its owner is notified, even after a failed removal; then the refresh flag flips, the selection clears and a success toast follows |
| AllCarts.AllCartsView.HandleStatusChange | src/pages/AllCarts.jsx:52-61 | the owner is notified with the status text, and the refresh flag flips, only when the status change returned true |
| Comments.RepliesOf | src/pages/Comments.jsx:66-67 | a reply is shown under a comment exactly when it is in the list and carries that comment's id |
| Comments.RepliesOfCounts | src/pages/Comments.jsx:66-67 | each reply of the comment is shown as often as it occurs in the list, and no other reply is shown |
| Comments.RepliesOfKeepsOrder | src/pages/Comments.jsx:66-67 | they keep the order of the reply list |
| Comments.RepliesShownOnce | src/pages/Comments.jsx:66-67 | a reply appears under its own comment and under no other |
| Comments.ToggleShown | src/pages/Comments.jsx:117-121 | clicking the shown comment hides the replies; clicking any other comment shows that comment's |
| Comments.ToggleShownTwice | src/pages/Comments.jsx:117-121 | clicking twice restores what was shown, or hides everything if another comment was shown |
| Comments.CommentsView.constructor | src/pages/Comments.jsx:17-20 | no reply box is open, no replies are shown, the text is empty and no reply is being edited |
| Comments.CommentsView.FetchData | src/pages/Comments.jsx:22-30 | with a token, the comments and then the replies are fetched |
| Comments.CommentsView.HandleReplyClick | src/pages/Comments.jsx:32-35 | starting a reply selects the comment and resets the text to '' |
| Comments.CommentsView.TypeText | src/pages/Comments.jsx:137 | typing in the reply or edit box changes only the shared text |
| Comments.CommentsView.CancelReply | src/pages/Comments.jsx:142 | the reply box's cancel button closes it and keeps the text |
| Comments.CommentsView.SubmitReply | src/pages/Comments.jsx:37-47 | no effect without a selection or with a blank text; the untrimmed text is posted; a rejection stops before the notification; null still notifies; a truthy result also refetches the replies and clears the text and selection |
| Comments.CommentsView.ToggleReplies | src/pages/Comments.jsx:117-121 | the shown comment becomes `ToggleShown` of it |
| Comments.CommentsView.StartEdit | src/pages/Comments.jsx:172-175 | the edit box opens on the reply, holding its text |
| Comments.CommentsView.HandleEditReply | src/pages/Comments.jsx:49-56 | only the update request and its toast happen; the refresh branch never runs |
| Comments.CommentsView.HandleDeleteReply | src/pages/Comments.jsx:58-64 | only the remove request and its toast happen; the refresh branch never runs |
| Notifications.FindIndex | src/pages/Notifications.jsx:117 | the first index holding the id, or -1 exactly when no notification has it |
| Notifications.Position | src/pages/Notifications.jsx:117 | the confirmation number is the one-based position of the first match, and 0 when there is none |
| Notifications.WithoutNotification | src/pages/Notifications.jsx:38 | a notification is left exactly when it was in the list and its id differs |
| Notifications.WithoutNotificationCounts | src/pages/Notifications.jsx:38 | every notification whose id differs is left as many times as it occurred, and none with the id is left |
| Notifications.WithoutNotificationKeepsOrder | src/pages/Notifications.jsx:38 | the remaining notifications keep their order |
| Notifications.DeletedHasNoPosition | src/pages/Notifications.jsx:38 | after a delete the id has no position in the list |
| Notifications.NotificationsView.constructor | src/pages/Notifications.jsx:9-11 | the list starts empty, with no detail and no confirmation open |
| Notifications.NotificationsView.FetchAllNotifications | src/pages/Notifications.jsx:13-27 | a resolved fetch replaces the list wholesale; a rejection is toasted and keeps it |
| Notifications.NotificationsView.ShowDetail | src/pages/Notifications.jsx:65-69 | the row's "Detail" button opens the detail of that notification and changes nothing else |
| Notifications.NotificationsView.CloseDetail | src/pages/Notifications.jsx:99 | the detail's close button clears it and changes nothing else |
| Notifications.NotificationsView.AskDelete | src/pages/Notifications.jsx:72 | "Delete" opens the confirmation for that notification and changes nothing else |
| Notifications.NotificationsView.CancelDelete | src/pages/Notifications.jsx:121 | the confirmation's cancel button closes it and changes nothing else |
| Notifications.NotificationsView.ConfirmationNumber | src/pages/Notifications.jsx:117 | the number shown is the position of the pending notification |
| Notifications.NotificationsView.DeleteNotification | src/pages/Notifications.jsx:29-45 | no effect with nothing pending; after a resolved request exactly that id is removed and the confirmation clears; a rejection keeps the list and the confirmation |
| Search.SearchBox.constructor | src/components/Search.jsx:6 | the input starts as the shared search term |
| Search.SearchBox.Input | src/components/Search.jsx:10-12 | typing changes only the local term |
| Search.SearchBox.Click | src/components/Search.jsx:14-24 | a blank term changes nothing; otherwise the shared term becomes the trimmed term, the route becomes /products-list, and the input is resynced only when the shared term changed |
| Search.SearchBox.Sync | src/components/Search.jsx:22-24 | the input takes the shared term |
| Search.PublishedTermIsStable | src/components/Search.jsx:15-17 | a published term is non-blank, has no surrounding whitespace, and trims to itself |
| Login.LoginForm.constructor | src/pages/Login.jsx:8-9 | the email and password start empty |
| Login.LoginForm.SetEmail | src/pages/Login.jsx:39 | typing in the email input changes only the email |
| Login.LoginForm.SetPassword | src/pages/Login.jsx:43 | typing in the password input changes only the password |
| Login.LoginForm.Submit | src/pages/Login.jsx:11-30 | the credentials are posted. On success the token is persisted and then held. A failure shows its message and then "error is not defined", from the undeclared `error` on line 24. Only the token changes. |
| Navbar.Logout | src/components/Navbar.jsx:12-16 | the route becomes '/'; the token and storage change as `AfterLogout` says |

## Left out

- HTTP, toasts and console output are not executed. Each call's result is a parameter, and requests and toasts are appended to logs. Headers, URLs and `backendurl` are not modelled.
- `Date.now()` in the notification payload and `moment` date formatting are not modelled.
- Browser previews (`URL.createObjectURL`) are not modelled.
- Concurrency is not modelled. Handlers that are not awaited, such as the check-box requests, are modelled as if they finished before the next step. Stale fetches that overwrite newer data, and updates after unmount, are also left out.
- AddProductForm.Submit: price and stock are sent as the typed text. `Number()` conversion to floating point is not modelled.
- UpdateProductForm.Submit: numeric product fields are rendered as decimal integers. Floating-point values are not modelled.
- UpdateProductForm.ChangeSpecKey: the source copies only the array and then assigns `updated[index].key` in place, so the row object shared with the previous state is mutated. The model treats the rows as values, so this aliasing is not captured.
- UpdateProductForm.ChangeSpecValue: the same in-place aliasing of the row object is not captured.
- AddProduct keeps its rows as a JSON string that each handler parses and writes back. The model keeps the parsed sequence.
- FormData and `JSON.stringify` encodings are modelled as a field list and a map.
- Text.Trim: only the six ASCII whitespace characters are removed, not Unicode space separators or line terminators.
- Text.Lower: only A-Z are folded; other characters are left unchanged.
- A product field that is not a string, or a null `itemData`, `productData` or `product`, would raise a TypeError in the source. Fields are modelled as strings, so these errors are not modelled.
- AdminStore.GetComments: the reported failure stands for a null `data`, whose `data.message` raises the caught TypeError. A falsy body that is not null (`""`, `false`, `0`) would instead show an error toast with the text `undefined` and raise nothing. That case is not modelled.
- AdminStore.GetAllReplies: the reported failure stands for a null `data`, whose `data.replies` raises the caught TypeError after "No data". A falsy body that is not null would instead show "No data" and then set the replies to `undefined` without an error. The model has no undefined reply list, so that case is not modelled.
- A null `data` in `getProducts`, `getDashData` or `changeAvailability` would raise a caught TypeError, and a falsy body that is not null (an empty body `""`, `false`, `0`) takes the `else` branch and shows an error toast with the text `undefined`. Both are modelled as a reported failure with a message. In `changeCartStatus` a null `data` raises the same TypeError, which is caught, toasted as "Server Error" and answered with false: exactly the rejected outcome of `AdminStore.ChangeCartStatus`. A non-null falsy body there is a reported failure with an empty message, toasted as "Failed to change status". `res.data.data` being undefined in the notifications fetch is likewise not modelled.
- The context's `setX` setters and `backendurl` exposed to other components are not modelled.
- src/pages/Dashboard.jsx and src/components/Sidebar.jsx are not part of this model. They are charts and a static menu.
- The routing table of src/App.jsx is not part of this model, apart from the token gate.
- ProductsList's `handleNavigate` is not modelled: it passes the product id through router state. `UpdateProductForm` receives that id as a constructor argument instead.
- The modals' open and close markup beyond the selection cells is not modelled.
