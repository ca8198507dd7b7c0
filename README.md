# mg-gourmet-app client state, in Dafny

A model of the client-side core of a small marketplace web client: the session
store that keeps the bearer token and the current user, the product service
that builds the six product requests (with a multipart body for create and
update), the public catalog, the registration form and the seller console.

Every asynchronous request is split into a send step, which appends a `Call`
(verb, URL, body) to a log kept by the sender, and explicit reply and error
handler methods that take the reply as a parameter. Browser storage is a
`map<string, string>`, router navigations are a log of routes, and the
`confirm()` dialog is a boolean argument.

Modules, one per source file or shared concern:

- `Wrappers`, `Models` — optional values and the record types of `models/user.ts` and `models/product.ts`.
- `Text` — `join` and the decimal rendering of ids in URLs, with the numeral round trip.
- `Messages` — the error-message rule shared by the console and the registration form.
- `Http` — requests as values.
- `ProductService` — the request builders; create and update append to a `FormData`.
- `Auth` — a pure `Session` model with one transition per reply, a replay of event histories, and the `AuthService` class whose methods are proved against those transitions.
- `Images` — image URLs and the broken-image fallback.
- `Home`, `Register`, `Admin` — the three components as classes.

Facts about the code that the model keeps as they are:

- The console's failed-logout handler carries the comment "Even if logout fails on server, clear local data" (admin.component.ts:175). It only removes the token, and the current user stays published. `Auth.UserCanOutliveToken` shows that this state, a user with no token, is reachable.
- A "success" login or register reply with an empty `access_token` stores "". `isLoggedIn` is then false while the user is published (`Auth.AuthReplyEffect`).
- The console's "created/updated" confirmation is set and then cleared by `resetForm` in the same handler, so it is never left showing (`Admin.AdminComponent.OnSaveReply`).
- The logout tap runs on every non-error reply, whatever its `status`.

## Model

| member | source | states |
|---|---|---|
| `Text.JoinPlacesPart` | src/app/components/admin/admin.component.ts:145-146 | every part of `join(', ')` appears unchanged at its computed offset in the result |
| `Text.JoinContainsEveryPart` | src/app/components/register/register.component.ts:57-58 | joining loses no part: each part occurs in the joined string |
| `Text.NatText` | src/app/services/product.service.ts:21 | the decimal numeral of an id is non-empty and made of digits only |
| `Text.NatTextRoundTrip` | src/app/services/product.service.ts:21 | reading back the rendered numeral gives the number (round trip) |
| `Text.IntTextInjective` | src/app/services/product.service.ts:55-60 | different ids render as different strings, each starting with a digit or '-' |
| `Messages.FlattenMembership` | src/app/components/admin/admin.component.ts:145 | a message is in the flattened list exactly when some field of the `errors` object carries it |
| `Messages.ErrorPrecedence` | src/app/components/register/register.component.ts:55-59 | when an `errors` object is present the result is its flattened messages joined with ", ", whatever the `message` and fallback are (no messages gives ""); otherwise a non-empty backend `message`, else the fallback text |
| `Messages.FieldsWithoutMessagesShowNothing` | src/app/components/admin/admin.component.ts:144-146 | an `errors` object whose fields all have empty message lists is shown as "" |
| `Messages.ErrorMessageShowsEveryFieldError` | src/app/components/admin/admin.component.ts:143-147 | every field-level message the backend sent can be read in the shown message |
| `Messages.TwoFieldErrorsExample` | src/app/components/register/register.component.ts:56-58 | errors `name: [required]`, `price: [must be positive]` are shown as "required, must be positive" |
| `ProductService.FormData.constructor` | src/app/services/product.service.ts:31 | a new form has no fields |
| `ProductService.FormData.Append` | src/app/services/product.service.ts:32 | appending adds one field at the end and keeps the earlier ones |
| `ProductService.CreateProduct` | src/app/services/product.service.ts:30-41 | create is a POST to /products carrying exactly the create field list |
| `ProductService.UpdateProduct` | src/app/services/product.service.ts:44-56 | update is a POST to /products/{id} carrying exactly the update field list |
| `ProductService.CreateFieldOrder` | src/app/services/product.service.ts:31-38 | create fields are name, description, price, then image only if a file is present, with the form's values |
| `ProductService.UpdateIsCreateWithOverride` | src/app/services/product.service.ts:45-53 | the update fields are the create fields with `_method=PUT` inserted before the optional image |
| `ProductService.ImageFieldOnlyWithImage` | src/app/services/product.service.ts:36-53 | an `image` field is sent by create or update if and only if the request has an image |
| `ProductService.ProductUrlInjective` | src/app/services/product.service.ts:55-60 | two product URLs are equal only for the same id (an absent id renders as "undefined") |
| `ProductService.Endpoints` | src/app/services/product.service.ts:15-60 | the verb and path of all six operations; /my-products takes no owner parameter |
| `ProductService.UpdateUrlIsNotCreateUrl` | src/app/services/product.service.ts:40-55 | the update URL never coincides with the create URL |
| `Auth.AuthService.constructor` | src/app/services/auth.service.ts:11-20 | the current user starts absent; the "me" request is sent only when a non-empty token is stored |
| `Auth.AuthService.SetToken` | src/app/services/auth.service.ts:79-81 | writes the token under 'auth_token' and nothing else |
| `Auth.AuthService.GetToken` | src/app/services/auth.service.ts:83-85 | returns the value stored under 'auth_token', or none |
| `Auth.AuthService.RemoveToken` | src/app/services/auth.service.ts:87-89 | removes 'auth_token' and nothing else |
| `Auth.AuthService.IsLoggedIn` | src/app/services/auth.service.ts:91-93 | true iff a token is stored and it is non-empty |
| `Auth.AuthService.GetCurrentUserValue` | src/app/services/auth.service.ts:95-97 | returns the current user cell |
| `Auth.AuthService.Login` | src/app/services/auth.service.ts:22-23 | sends one login request and changes no session state |
| `Auth.AuthService.OnLoginReply` | src/app/services/auth.service.ts:24-31 | the session after a login reply follows the login/register transition |
| `Auth.AuthService.Register` | src/app/services/auth.service.ts:34-35 | sends one register request and changes no session state |
| `Auth.AuthService.OnRegisterReply` | src/app/services/auth.service.ts:36-44 | a register reply has the same effect as a login reply |
| `Auth.AuthService.Logout` | src/app/services/auth.service.ts:46-47 | sends one logout request and changes no session state |
| `Auth.AuthService.OnLogoutReply` | src/app/services/auth.service.ts:48-54 | a logout reply removes the token and publishes no user |
| `Auth.AuthService.GetCurrentUser` | src/app/services/auth.service.ts:56-57 | sends one "me" request and changes no session state |
| `Auth.AuthService.OnMeReply` | src/app/services/auth.service.ts:58-65 | a "me" reply follows the me transition |
| `Auth.AuthService.RefreshToken` | src/app/services/auth.service.ts:67-68 | sends one refresh request and changes no session state |
| `Auth.AuthService.OnRefreshReply` | src/app/services/auth.service.ts:69-76 | a refresh reply follows the refresh transition |
| `Auth.TokenStorageRoundTrip` | src/app/services/auth.service.ts:79-93 | get after set returns the token; after remove there is none and not logged in; other keys untouched |
| `Auth.AuthReplyEffect` | src/app/services/auth.service.ts:22-44 | on "success" the token is stored and the user published (logged in iff the token is non-empty); otherwise nothing changes |
| `Auth.LogoutReplyEffect` | src/app/services/auth.service.ts:46-54 | after a logout reply there is no token, the client is not logged in and there is no user |
| `Auth.MeAndRefreshEffects` | src/app/services/auth.service.ts:56-76 | "me" publishes the user on success and never touches storage; refresh replaces the token on success and never the user |
| `Auth.LoginThenLogout` | src/app/services/auth.service.ts:22-54 | whatever a login did, a following logout leaves the storage as the original minus the token |
| `Auth.CurrentUserIsLastPublished` | src/app/services/auth.service.ts:11-97 | after any history of events the current user is the value published most recently, or the initial absent value |
| `Auth.StorageIsLastTokenWrite` | src/app/services/auth.service.ts:79-89 | after any history the stored token is the most recent token write, and no other storage key ever changes |
| `Auth.UserCanOutliveToken` | src/app/components/admin/admin.component.ts:174-178 | removing the token alone leaves a published user with no token |
| `Images.ImageUrlRecoversPath` | src/app/components/home/home.component.ts:42-47 | an absent or empty path gives the placeholder; otherwise the URL is the storage origin followed by the path, which can be read back |
| `Images.ImageUrlInjective` | src/app/components/home/home.component.ts:42-47 | two paths give the same URL only if both are missing or they are the same path |
| `Images.OnImageError` | src/app/components/home/home.component.ts:56-61 | `src` ends as the placeholder and is not written when it already is, so a second application changes nothing |
| `Home.HomeComponent.constructor` | src/app/components/home/home.component.ts:15-17 | starts with no products, loading, no error, no request |
| `Home.HomeComponent.NgOnInit` | src/app/components/home/home.component.ts:21-23 | activation loads the catalog |
| `Home.HomeComponent.LoadProducts` | src/app/components/home/home.component.ts:25-27 | raises loading and sends one request for all products |
| `Home.HomeComponent.OnProductsReply` | src/app/components/home/home.component.ts:28-33 | clears loading; on "success" the products become the list, or a singleton list for one product; otherwise they stay |
| `Home.HomeComponent.OnProductsError` | src/app/components/home/home.component.ts:34-38 | clears loading, sets 'Erro ao carregar produtos.' and keeps the products |
| `Register.ValidationOrder` | src/app/components/register/register.component.ts:32-41 | the form passes iff all four fields are filled and the passwords match; an empty field is reported before a mismatch |
| `Register.RegisterComponent.constructor` | src/app/components/register/register.component.ts:16-24 | empty form, not loading, no error |
| `Register.RegisterComponent.OnSubmit` | src/app/components/register/register.component.ts:31-46 | an invalid form sets the first complaint and sends nothing; a valid one sets loading, clears the error and sends exactly one register request with the form |
| `Register.RegisterComponent.OnRegisterReply` | src/app/components/register/register.component.ts:47-52 | the session follows the register transition, loading is cleared, and '/admin' is navigated to only on "success" |
| `Register.RegisterComponent.OnRegisterError` | src/app/components/register/register.component.ts:53-60 | clears loading and shows the shared error message with the registration fallback |
| `Admin.SaveCallChoosesOperation` | src/app/components/admin/admin.component.ts:125-127 | a save is an update to the edited product's URL exactly when a product is being edited, otherwise a create |
| `Admin.EditedProductSave` | src/app/components/admin/admin.component.ts:87-127 | saving an edited product addresses that product's id and never uploads an image unless one is chosen |
| `Admin.AdminComponent.constructor` | src/app/components/admin/admin.component.ts:19-34 | the initial field values: no products, loading, form closed and blank, no messages |
| `Admin.AdminComponent.NgOnInit` | src/app/components/admin/admin.component.ts:42-57 | without a token: to '/login' and no request; with one: subscribe, replay the current user (to '/login' if none yet) and load the list |
| `Admin.AdminComponent.OnCurrentUser` | src/app/components/admin/admin.component.ts:49-54 | records the user and navigates to '/login' when there is none |
| `Admin.AdminComponent.LoadMyProducts` | src/app/components/admin/admin.component.ts:59-61 | raises loading and sends one /my-products request |
| `Admin.AdminComponent.OnMyProductsReply` | src/app/components/admin/admin.component.ts:62-67 | clears loading; on "success" the products become the list or the singleton; nothing else changes |
| `Admin.AdminComponent.OnMyProductsError` | src/app/components/admin/admin.component.ts:68-72 | clears loading, sets 'Erro ao carregar seus produtos.' and keeps the products |
| `Admin.AdminComponent.ShowAddProduct` | src/app/components/admin/admin.component.ts:81-85 | opens a blank form with no product being edited |
| `Admin.AdminComponent.EditProduct` | src/app/components/admin/admin.component.ts:87-96 | opens the form on the product, copying name, description and price but never the image |
| `Admin.AdminComponent.ResetForm` | src/app/components/admin/admin.component.ts:98-108 | blank form (price 0, no image), no chosen file, both messages empty; nothing else changes |
| `Admin.AdminComponent.CancelForm` | src/app/components/admin/admin.component.ts:110-114 | as reset, and also closes the form and clears the edited product |
| `Admin.AdminComponent.OnSubmitProduct` | src/app/components/admin/admin.component.ts:116-129 | an incomplete form only sets the complaint; a complete one sets loading, clears the error and sends one update (when editing) or create |
| `Admin.AdminComponent.OnSaveReply` | src/app/components/admin/admin.component.ts:130-140 | on "success": form closed and reset, success message left empty, edited product kept, list reloaded; otherwise only loading is cleared |
| `Admin.AdminComponent.OnSaveError` | src/app/components/admin/admin.component.ts:141-148 | clears loading and shows the shared error message with the 'Erro ao salvar produto.' fallback |
| `Admin.AdminComponent.DeleteProduct` | src/app/components/admin/admin.component.ts:152-154 | a delete request is sent only after confirmation; declining changes nothing |
| `Admin.AdminComponent.OnDeleteReply` | src/app/components/admin/admin.component.ts:155-160 | on "success" the confirmation is set and the list reloaded; otherwise nothing changes |
| `Admin.AdminComponent.OnDeleteError` | src/app/components/admin/admin.component.ts:161-164 | sets 'Erro ao excluir produto.' and leaves the products as they are |
| `Admin.AdminComponent.Logout` | src/app/components/admin/admin.component.ts:169-170 | sends one logout request through the session store |
| `Admin.AdminComponent.OnLogoutReply` | src/app/components/admin/admin.component.ts:171-173 | the token is removed and no user published; a subscribed console goes to '/login' and then '/' |
| `Admin.AdminComponent.OnLogoutError` | src/app/components/admin/admin.component.ts:174-178 | only the token is removed (the user stays published) and the console goes to '/' |

## Left out

- HTTP transport, RxJS observables and subscription timing: each request is a send step plus reply handlers that the host calls. Replies that never arrive, and several replies in flight at once, are whatever sequence of handler calls the host makes.
- Current-user notifications that the console does not cause itself: a "me" or login reply that arrives while the console is subscribed would also reach `OnCurrentUser`. Only the notification from the console's own logout is wired. Unsubscribing on teardown is not modelled either.
- `onFileSelected` (admin.component.ts:76-79): it reads a browser `FileList` event. So the console's form never gets an image in this model. The product service still handles an image in full.
- `formatPrice` in both components: it is locale currency formatting over a floating-point number.
- `price.toString()`: the multipart price field carries the number itself (`Number(price)`), without its text.
- `Text.IntText`: ids are taken as integers, rendered in plain decimal. JavaScript numbers whose magnitude is 10^21 or more render in exponent form, such as "1e+21", and non-integers render with a decimal point. Those renderings are not modelled, so the model holds only for integer ids whose magnitude is below 10^21.
- Prices are reals. A NaN price, which would pass the `price <= 0` guard, is not modelled.
- `console.error` logging, Angular decorators, dependency injection, templates and styles.
- `Images.OnImageError`: `src` is the string last assigned. A browser returns `src` as an absolute URL, so there the comparison with the relative placeholder path would never match.
- A backend `message` that is not a string is not modelled. Neither is an `errors` value that is not an array.
- The backend's own authorization and validation: the client only relays its `message` and `errors`.
