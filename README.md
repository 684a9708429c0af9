# POS admin dashboard: a Dafny model

This project models the client-side logic of a point-of-sale back-office dashboard. It is a Next.js web app in which administrators:
- manage products, categories and cashier accounts;
- read daily, weekly, monthly and custom-range sales reports;
- export those reports as PDF.

All data lives behind a REST backend. The dashboard's own logic is:
- the shared HTTP client's interceptors: the bearer token, unwrapping the backend's `{success, statusCode, message, data, timestamp}` envelope, and a forced logout on 401/403;
- the cookie-held session: restored at start-up, set by login, cleared by logout;
- the login rules: only an ADMIN is let in;
- the navigation sidebar's highlighting;
- the product service's payload shaping and image-URL choice;
- four page components. Each holds form and dialog state that its handlers update, and each carries a few pure rules: search filters, image-URL rewriting, low-stock markers, the report calendar arithmetic, the PDF query and file name, and the report content slicing.

The model follows the source's own shape:
- Pure rules are functions with lemmas about them.
- Every page, the auth provider, the sidebar and the browser window are classes whose fields the handlers update.
  - Each page class has a `View()` snapshot.
  - Every handler's `ensures` states the whole new snapshot as the old one with named fields replaced.
- The requests themselves are not sent. A handler takes the reply or the outcome of each request as a parameter (`None` or `false` means the request failed) and returns what it would have sent and the alert it would have raised.
- Foreign code becomes a function parameter: `jwtDecode`, `JSON.parse` and `JSON.stringify` (`None` means it throws).

Helper modules:
- `Wrappers`: Option and Result.
- `Js`: JavaScript truthiness and `a || b || ...` chains.
- `Strings`:
  - ASCII `toLowerCase`, `startsWith` and `includes`;
  - the case-insensitive "mentions" test the searches use;
  - `String(n)` and `parseInt`.
- `Lists`: an order-keeping filter and `slice(0, n)`.
- `Urls`: the part of the `URL` class the image rewrite uses.
- `Calendar`:
  - day numbers counted from 1970-01-01;
  - `getDay`;
  - proleptic Gregorian dates;
  - `YYYY-MM-DD` strings written as `toISOString` writes them and read as `new Date` reads them.

The reports page's PDF export asks the backend's `/reports/export/pdf` endpoint for the file and saves the returned blob.

## Model

| member | source | states |
|---|---|---|
| Js.Truthy | src/services/productService.ts:39 | the falsy optional strings are exactly `undefined`/`null` and `""` |
| Js.FirstTruthy | src/services/productService.ts:32-37 | an or-chain of optional values yields the first truthy one, or None when none is truthy |
| Js.FirstTruthyAt | src/services/productService.ts:32-37 | when the k-th value is the first truthy one, the chain yields exactly that value |
| Strings.StartsWith | src/components/layout/Sidebar.tsx:33 | a prefix is no longer than the text; the empty string and the text itself are prefixes |
| Strings.Join | src/services/productService.ts:40 | no parts join to ""; one part is itself; otherwise the result starts with the first part and its length is the parts' lengths plus one separator between each two |
| Strings.IntToString | src/app/products/page.tsx:181-183 | `String(n)` is non-empty, starts with '-' exactly for a negative n, and is all digits otherwise |
| Strings.ToLower | src/app/products/page.tsx:240 | `toLowerCase` keeps the length and lower-cases each ASCII capital |
| Strings.ToLowerIdempotent | src/app/products/page.tsx:240 | lower-casing twice is the same as lower-casing once |
| Strings.IncludesIffOccurs | src/app/products/page.tsx:240 | `includes` is true exactly when the text occurs at some position |
| Strings.Includes | src/app/products/page.tsx:240 | a text includes nothing longer than itself |
| Strings.Mentions | src/app/products/page.tsx:240 | a text mentions no search longer than itself, letter case aside |
| Strings.IncludesToLower | src/app/products/page.tsx:240 | a contained text stays contained after both are lower-cased |
| Strings.MentionsEmpty | src/app/products/page.tsx:240 | every text mentions the empty search |
| Strings.MentionsIgnoresCase | src/app/users/page.tsx:145-146 | lower-casing the search does not change which texts mention it |
| Strings.ContainedIsMentioned | src/app/categories/page.tsx:118 | a text that contains the search as typed mentions it |
| Strings.NatToString | src/app/products/page.tsx:182 | `String(n)` of a natural is a non-empty string of digits |
| Strings.LeadingDigits | src/app/products/page.tsx:159 | the digits `parseInt` reads form a prefix, and the character after them is not a digit |
| Strings.ParseInt | src/app/products/page.tsx:159 | the empty string reads as NaN; a string that starts with a digit reads as a non-negative number, and one that starts with '-' as a non-positive one |
| Strings.DigitsValueOfNat | src/app/products/page.tsx:181-183 | the digits `String(n)` writes have the value n |
| Strings.ParseIntToString | src/app/products/page.tsx:181-198 | `parseInt(String(n)) == n` for every integer, negatives included |
| Lists.Filter | src/app/products/page.tsx:239-242 | the filtered list is no longer than the input and holds only kept elements |
| Lists.FilterMembership | src/app/products/page.tsx:239-242 | an element is in the filtered list exactly when it is in the input and kept |
| Lists.FilterAppend | src/app/products/page.tsx:239-242 | filtering a concatenation concatenates the filtered parts, so order is kept |
| Lists.FilterKeepsAll | src/app/products/page.tsx:239-242 | a filter that keeps every element returns the list unchanged |
| Lists.FilterSameKeep | src/app/products/page.tsx:239-242 | two tests that agree on every element filter the same way |
| Lists.Take | src/app/reports/page.tsx:416 | `slice(0, n)` is a prefix of length min(n, length) |
| Browser.Window.GetCookie | src/lib/api.ts:17 | `getCookie` gives the stored value exactly when the cookie is set |
| Browser.Window.SetCookie | src/context/AuthContext.tsx:61-62 | `setCookie` stores the value and max-age under the name; every other cookie and the path are unchanged |
| Browser.Window.DeleteCookie | src/context/AuthContext.tsx:68-69 | `deleteCookie` removes exactly that cookie |
| Browser.Window.Navigate | src/lib/api.ts:44 | navigation changes the path and no cookie |
| Api.ApiUrl | src/lib/api.ts:5 | the configured API URL when it is truthy, else `http://10.168.81.25:3000` |
| Api.AttachToken | src/lib/api.ts:15-22 | a truthy token cookie adds `Authorization`; no other header changes, and a request without a token is untouched |
| Api.BearerRoundTrip | src/lib/api.ts:17-19 | the token written as `Bearer <token>` is the token a server reads back |
| Api.JsonTruthy | src/lib/api.ts:33 | the falsy JSON values are exactly null, false, 0 and "" (an empty array or object is truthy) |
| Api.Member | src/app/reports/page.tsx:97 | `j?.key` is undefined on a non-object and otherwise the member's value when the key is present |
| Api.UnwrapEnvelope | src/lib/api.ts:29-37 | `data` is replaced by `data.data` when `data` is truthy and `data.data` is defined; otherwise the response passes through |
| Api.UnwrapEnvelopeRoundTrip | src/lib/api.ts:29-37 | any payload wrapped in the backend's envelope, null included, reaches the page exactly |
| Api.NonEnvelopePassesThrough | src/lib/api.ts:33-36 | bodies without a `data` member are not changed |
| Api.InterceptError | src/lib/api.ts:38-48 | on 401/403 away from `/login` both cookies are deleted and the page goes to `/login`; otherwise nothing changes; the error is always rejected again |
| Api.EndsSession | src/lib/api.ts:39-41 | only a 401 or 403 response ends the session, and never under `/login` |
| Api.NoRedirectFromLogin | src/lib/api.ts:41 | on a path under `/login` no error ends the session |
| AuthContext.Restored | src/context/AuthContext.tsx:29-58 | without a truthy token nothing changes; the cookies either stay or lose exactly token and user; a changed user is a present user; the branches are stated exactly by the three restore lemmas |
| AuthContext.LoggedIn | src/context/AuthContext.tsx:60-63 | after login the user is set and both cookies hold the token and the stringified user with a max-age of 604800; other cookies are kept |
| AuthContext.LoggedOut | src/context/AuthContext.tsx:67-70 | after logout there is no user and neither cookie; other cookies are kept |
| AuthContext.LoginThenRestore | src/context/AuthContext.tsx:37-63 | a session stored by login is restored unchanged on the next start-up when the token decodes and the user cookie parses back |
| AuthContext.LogoutThenRestore | src/context/AuthContext.tsx:30-70 | after logout a restart restores nobody |
| AuthContext.UndecodableTokenClearsSession | src/context/AuthContext.tsx:51-55 | a token that fails to decode deletes both cookies and leaves the user as it was |
| AuthContext.RestoreFromUserCookie | src/context/AuthContext.tsx:37-55 | with a decodable token and a truthy user cookie, a cookie that parses becomes the user and both cookies stay; one that does not parse deletes both cookies and leaves the user |
| AuthContext.RestoreFromClaims | src/context/AuthContext.tsx:43-49 | without a user cookie the user comes from the claims exactly when sub, email and role are all truthy |
| AuthContext.AuthProvider.constructor | src/context/AuthContext.tsx:25-26 | the provider starts with no user and loading set |
| AuthContext.AuthProvider.Restore | src/context/AuthContext.tsx:29-58 | the mount effect applies `Restored` and always ends loading |
| AuthContext.AuthProvider.Login | src/context/AuthContext.tsx:60-65 | login applies `LoggedIn` and navigates to `/` |
| AuthContext.AuthProvider.Logout | src/context/AuthContext.tsx:67-72 | logout applies `LoggedOut` and navigates to `/login` |
| AuthContext.UseAuth | src/context/AuthContext.tsx:81-87 | outside a provider it fails with "useAuth must be used within an AuthProvider"; inside, it gives the provider |
| Sidebar.DashboardOnlyOnRoot | src/components/layout/Sidebar.tsx:31-32 | the dashboard item is active exactly on `/` |
| Sidebar.IsActive | src/components/layout/Sidebar.tsx:31-34 | an item is active only on paths it is a prefix of, and the dashboard exactly on `/` |
| Sidebar.AtMostOneActive | src/components/layout/Sidebar.tsx:23-34 | for any path, no two of the five items are active together |
| Sidebar.FollowedItemIsActive | src/components/layout/Sidebar.tsx:23-34 | on an item's own path that item is active and every other is not |
| Sidebar.SidebarState.constructor | src/components/layout/Sidebar.tsx:21 | the mobile menu starts closed |
| Sidebar.SidebarState.ToggleMobileMenu | src/components/layout/Sidebar.tsx:42 | the menu button flips the menu |
| Sidebar.SidebarState.CloseMobileMenu | src/components/layout/Sidebar.tsx:36 | the menu is closed |
| Sidebar.SidebarState.FollowNavItem | src/components/layout/Sidebar.tsx:87 | a link click closes the menu and goes to the item's path, with the cookies unchanged |
| Sidebar.SidebarState.ClickLogout | src/components/layout/Sidebar.tsx:107-110 | the logout button closes the menu and logs out, ending on `/login` with the provider's `loading` flag unchanged |
| LoginPage.CaughtMessage | src/app/login/page.tsx:50 | the server's message, else the error's message, else "Invalid credentials"; never empty |
| LoginPage.SubmitError | src/app/login/page.tsx:33-50 | the error is empty exactly when the reply is admitted; the token, user and role checks run in that order with their own messages |
| LoginPage.Admits | src/app/login/page.tsx:33-46 | a reply is let in only with a non-empty token and a user whose role is ADMIN |
| LoginPage.MissingTokenReportedFirst | src/app/login/page.tsx:33-35 | a reply without a token is refused for the token, whatever its user |
| LoginPage.NonAdminRefused | src/app/login/page.tsx:41-45 | a non-ADMIN user with a token is refused with the access-denied message |
| LoginPage.LoginPageState.constructor | src/app/login/page.tsx:13-16 | empty fields, no error, no spinner |
| LoginPage.LoginPageState.BeginSubmit | src/app/login/page.tsx:21-25 | the spinner is on, the error is cleared and the typed credentials are posted |
| LoginPage.LoginPageState.FinishSubmit | src/app/login/page.tsx:29-53 | an admitted reply logs in and goes to `/`; any other outcome sets the error and leaves the session alone; the spinner ends off |
| LoginPage.LoginPageState.HandleSubmit | src/app/login/page.tsx:19-54 | the user is logged in exactly when the reply is admitted, exactly then the error is empty, and the spinner ends off; the typed email and password and the provider's `loading` flag are unchanged |
| ProductService.MissingUrlMessage | src/services/productService.ts:40-42 | the missing-URL error starts with its fixed text and then lists the reply's keys joined by ", " (a single key alone), or "null" for a null reply |
| ProductService.UploadImage | src/services/productService.ts:16-46 | the URL returned is a non-empty candidate; the upload fails with the missing-URL message exactly when no candidate is truthy |
| ProductService.UploadUrlPriority | src/services/productService.ts:32-37 | `imageUrl`, `url`, `secure_url`, `data.imageUrl`, `data.url` are tried in that order |
| ProductService.ChosenImageUrl | src/services/productService.ts:50-55 | with a file, the uploaded URL or the upload's error; without one, the supplied URL |
| ProductService.CreatePayload | src/services/productService.ts:49-69 | all seven keys copied from the input, with the uploaded URL when a file was given; fails exactly when the upload fails |
| ProductService.PutIf | src/services/productService.ts:83-89 | a conditional assignment sets its key exactly when the condition holds and leaves every other key as it was |
| ProductService.PatchBody | src/services/productService.ts:80-89 | name, categoryId, status and imageUrl are sent only when truthy; description, price and stock whenever defined, so "" and 0 are sent |
| ProductService.UpdatePayload | src/services/productService.ts:72-92 | name, categoryId, status and imageUrl only when truthy; description, price and stock whenever defined; the uploaded URL overrides the supplied one; fails exactly when the upload fails |
| ProductsPage.ImageBase | src/app/products/page.tsx:73 | the configured API URL when truthy, else `http://192.168.1.3:3000` |
| ProductsPage.DefaultImageBaseParses | src/app/products/page.tsx:73-83 | the default base reads as host 192.168.1.3, port 3000 |
| ProductsPage.Rehost | src/app/products/page.tsx:81-94 | a URL that does not parse is returned unchanged |
| ProductsPage.GetValidImageUrl | src/app/products/page.tsx:67-98 | empty for a falsy URL; `data:` and `blob:` URLs kept; relative paths prefixed with the base; other non-http URLs kept |
| ProductsPage.UploadsRehosted | src/app/products/page.tsx:81-91 | an absolute http(s) `/uploads` URL takes the base's protocol, host and port and keeps its path, query and fragment, when both have a plain host (a dotted-decimal IPv4 address, or a lower-case domain whose last label is not a number) and are written as `new URL` writes them |
| ProductsPage.OtherAbsoluteUrlsKept | src/app/products/page.tsx:81-97 | absolute URLs off `/uploads`, or with a base that does not parse, are unchanged, when the host holds only lower-case letters, digits, '-' and '.' and the path and tail are written as `new URL` writes them |
| ProductsPage.RehostIdempotent | src/app/products/page.tsx:81-91 | rewriting an already rewritten URL changes nothing |
| ProductsPage.DefaultBaseRehost | src/app/products/page.tsx:73-91 | with no API URL configured, an http(s) upload under any plain host is served from `http://192.168.1.3:3000` with its own path and tail, when its path and tail are written as `new URL` writes them |
| ProductsPage.DefaultImageBaseCanonical | src/app/products/page.tsx:73 | the default base's origin (http, the dotted-decimal 192.168.1.3, port 3000) is written as `new URL` writes it |
| ProductsPage.FilteredProducts | src/app/products/page.tsx:239-242 | the listed products are at most the loaded ones |
| ProductsPage.FilteredProductsMembership | src/app/products/page.tsx:239-242 | a product is listed exactly when it is loaded and its name or its category's name mentions the search |
| ProductsPage.ProductMatches | src/app/products/page.tsx:239-242 | every product matches the empty search and a search its name contains |
| ProductsPage.FilteredProductsKeepOrder | src/app/products/page.tsx:239-242 | listed products keep their loaded order |
| ProductsPage.EmptySearchListsAllProducts | src/app/products/page.tsx:239-242 | an empty search lists every product |
| ProductsPage.ProductSearchIgnoresCase | src/app/products/page.tsx:240-241 | the search ignores letter case |
| ProductsPage.NameContainingSearchIsListed | src/app/products/page.tsx:240 | a loaded product whose name contains the search is listed |
| ProductsPage.LowStockMarkersAgree | src/app/products/page.tsx:304-324 | the "Stok Menipis" badge and the warning chip both show exactly when stock is below 10 |
| ProductsPage.CornerBadge | src/app/products/page.tsx:304-324 | the "Stok Menipis" badge shows exactly below ten in stock |
| ProductsPage.StockChipTone | src/app/products/page.tsx:304-324 | the chip is a warning exactly when the badge shows |
| ProductsPage.SetField | src/app/products/page.tsx:120-123 | the named field takes the value and every other field keeps its own |
| ProductsPage.EditFormRoundTrip | src/app/products/page.tsx:158-187 | the edit form holds the product's text as is, and its price, stock and category strings parse back to the product's numbers |
| ProductsPage.EditForm | src/app/products/page.tsx:176-187 | the form holds the name, the description or "", a non-empty image exactly for a truthy image URL, and stock and category strings that parse back to the product's numbers |
| ProductsPage.PriceString | src/app/products/page.tsx:181 | a numeric price is written so that `parseInt` reads it back; a text price is kept |
| ProductsPage.EditAlert | src/app/products/page.tsx:208-213 | the edit alert starts with the fixed failure text |
| ProductsPage.ProductsPageState.Shown | src/app/products/page.tsx:239-242 | the shown products are exactly the loaded ones that match the current search |
| ProductsPage.ProductsPageState.constructor | src/app/products/page.tsx:40-62 | empty lists, loading, dialogs closed, empty form |
| ProductsPage.ProductsPageState.FetchData | src/app/products/page.tsx:100-114 | a reply replaces products and categories; loading ends in every case |
| ProductsPage.ProductsPageState.HandleInputChange | src/app/products/page.tsx:120-123 | one field changes; nothing else does |
| ProductsPage.ProductsPageState.ResetForm | src/app/products/page.tsx:125-136 | the form, the chosen file and the preview are cleared |
| ProductsPage.ProductsPageState.OpenAdd | src/app/products/page.tsx:259 | a reset form in the add dialog |
| ProductsPage.ProductsPageState.HandleFileChange | src/app/products/page.tsx:138-149 | a chosen file is stored with its preview; no file changes nothing |
| ProductsPage.ProductsPageState.HandleEditClick | src/app/products/page.tsx:176-187 | the product becomes current, the form takes its values and the edit dialog opens |
| ProductsPage.ProductsPageState.HandleDeleteClick | src/app/products/page.tsx:219-222 | the product becomes current and the delete dialog opens |
| ProductsPage.ProductsPageState.HandleAddSubmit | src/app/products/page.tsx:151-174 | a rejected upload of a chosen file posts nothing; otherwise posts `createProduct`'s payload with status AVAILABLE when it can be built; success closes and resets; any failure alerts and leaves the form |
| ProductsPage.ProductsPageState.AddPayload | src/services/productService.ts:49-68 | nothing is posted exactly when the upload of a chosen file is rejected or its reply has no URL; otherwise the payload `createProduct` builds from the form |
| ProductsPage.ProductsPageState.FinishAdd | src/app/products/page.tsx:165-173 | a created product closes the dialog and resets the form; otherwise the add alert is raised; loading ends either way |
| ProductsPage.ProductsPageState.FinishEdit | src/app/products/page.tsx:204-216 | a saved patch closes the edit dialog; a rejected one alerts with the server's reply; loading ends either way |
| ProductsPage.ProductsPageState.HandleEditSubmit | src/app/products/page.tsx:189-217 | without a current product nothing happens; otherwise a patch of the current id is sent exactly when there is no file or the upload got a reply with a URL; it holds description, price and stock, the name and category only when non-empty, no status, and the uploaded URL (with a file) or the form's non-empty image URL; a rejected upload or patch alerts with the server's error reply when there is one, an upload reply without a URL with the plain alert; every outcome gives the whole new snapshot |
| ProductsPage.ProductsPageState.EditPayload | src/services/productService.ts:72-92 | the edit form's patch fails exactly when a file is chosen and its upload is rejected or replies without a URL; otherwise it holds description, price and stock, the name and category only when non-empty, no status, and the uploaded or the form's non-empty image URL |
| ProductsPage.ProductsPageState.HandleDeleteSubmit | src/app/products/page.tsx:224-237 | without a current product nothing happens; otherwise deletes its id; success closes the dialog, failure alerts |
| Urls.SplitAt | src/app/products/page.tsx:82 | the two parts concatenate to the input; the first holds no stop, the second is empty or starts with one |
| Urls.SplitAtConcat | src/app/products/page.tsx:82 | a stop-free prefix followed by a stop is exactly where the split falls |
| Urls.Serialize | src/app/products/page.tsx:90 | the written URL starts with its protocol |
| Urls.Parse | src/app/products/page.tsx:82 | every URL read is well formed, and a port that is not a number up to 65535 is refused as `new URL` refuses it |
| Urls.ParseAuthority | src/app/products/page.tsx:82 | a host read from the authority is non-empty and free of ':', '/', '?' and '#' |
| Urls.ParsePath | src/app/products/page.tsx:82 | the path read starts with '/' (an empty one reads as "/") and the tail is empty or starts with '?' or '#' |
| Urls.ParseOfParts | src/app/products/page.tsx:82 | a protocol, a host with its port and what follows read back as those parts |
| Urls.ParseSerialize | src/app/products/page.tsx:82-90 | writing a well-formed URL and reading it back gives the same URL |
| Urls.ParseOrigin | src/app/products/page.tsx:83 | a URL without a path reads with the path "/" |
| Urls.WithOrigin | src/app/products/page.tsx:86-88 | replacing protocol, host and port keeps a URL well formed, with its path, query and fragment |
| UsersPage.FilteredUsers | src/app/users/page.tsx:144-147 | the listed accounts are at most the loaded ones |
| UsersPage.FilteredUsersMembership | src/app/users/page.tsx:144-147 | an account is listed exactly when it is loaded and its name, if any, or its email mentions the search |
| UsersPage.UserMatches | src/app/users/page.tsx:144-147 | every account matches the empty search and a search its email contains |
| UsersPage.NamelessUserFoundByEmailOnly | src/app/users/page.tsx:145-146 | an account without a name is found by its email alone |
| UsersPage.FilteredUsersKeepOrder | src/app/users/page.tsx:144-147 | listed accounts keep their loaded order |
| UsersPage.EmptySearchListsAllUsers | src/app/users/page.tsx:144-147 | an empty search lists every account |
| UsersPage.UserSearchIgnoresCase | src/app/users/page.tsx:145-146 | the search ignores letter case |
| UsersPage.RoleLabel | src/app/users/page.tsx:217 | the label is one of "Administrator" and "Cashier" |
| UsersPage.RoleLabelExact | src/app/users/page.tsx:217 | "Administrator" exactly for ADMIN; KASIR reads "Cashier" |
| UsersPage.SetField | src/app/users/page.tsx:58-61 | the named field takes the value, the other three keep theirs |
| UsersPage.EditForm | src/app/users/page.tsx:93-102 | the edit form never holds a password |
| UsersPage.EditFormFromAccount | src/app/users/page.tsx:93-102 | the edit form holds the account's email, role and name (a missing name as "") |
| UsersPage.UsersPageState.constructor | src/app/users/page.tsx:23-40 | empty, loading, with the empty KASIR form |
| UsersPage.UsersPageState.FetchData | src/app/users/page.tsx:42-52 | a reply replaces the accounts; loading ends in every case |
| UsersPage.UsersPageState.HandleInputChange | src/app/users/page.tsx:58-61 | one field changes; the other three do not |
| UsersPage.UsersPageState.ResetForm | src/app/users/page.tsx:63-70 | the form is back to empty with the KASIR role |
| UsersPage.UsersPageState.OpenAdd | src/app/users/page.tsx:164 | a reset form in the add dialog |
| UsersPage.UsersPageState.HandleAddSubmit | src/app/users/page.tsx:72-91 | posts all four fields; success closes and resets; failure alerts |
| UsersPage.UsersPageState.HandleEditClick | src/app/users/page.tsx:93-102 | the account becomes current, the form takes `EditForm` and the dialog opens |
| UsersPage.UsersPageState.HandleEditSubmit | src/app/users/page.tsx:104-122 | without a current account nothing happens; otherwise only the name is patched |
| UsersPage.UsersPageState.HandleDeleteClick | src/app/users/page.tsx:124-127 | the account becomes current and the delete dialog opens |
| UsersPage.UsersPageState.HandleDeleteSubmit | src/app/users/page.tsx:129-142 | without a current account nothing happens; otherwise its id is deleted |
| CategoriesPage.FilteredCategories | src/app/categories/page.tsx:117-119 | the listed categories are at most the loaded ones |
| CategoriesPage.FilteredCategoriesMembership | src/app/categories/page.tsx:117-119 | a category is listed exactly when it is loaded and its name mentions the search |
| CategoriesPage.CategoryMatches | src/app/categories/page.tsx:117-119 | every category matches the empty search and a search its name contains |
| CategoriesPage.FilteredCategoriesKeepOrder | src/app/categories/page.tsx:117-119 | listed categories keep their loaded order |
| CategoriesPage.EmptySearchListsAllCategories | src/app/categories/page.tsx:117-119 | an empty search lists every category |
| CategoriesPage.CategorySearchIgnoresCase | src/app/categories/page.tsx:118 | the search ignores letter case |
| CategoriesPage.CategoriesPageState.constructor | src/app/categories/page.tsx:22-35 | empty, loading, dialogs closed |
| CategoriesPage.CategoriesPageState.FetchData | src/app/categories/page.tsx:37-47 | a reply replaces the categories; loading ends in every case |
| CategoriesPage.CategoriesPageState.SetName | src/app/categories/page.tsx:211 | the name input sets only the name |
| CategoriesPage.CategoriesPageState.SetDescription | src/app/categories/page.tsx:215 | the description input sets only the description |
| CategoriesPage.CategoriesPageState.ResetForm | src/app/categories/page.tsx:53-56 | both fields are cleared |
| CategoriesPage.CategoriesPageState.OpenAdd | src/app/categories/page.tsx:136 | the add button clears only the name and keeps the description |
| CategoriesPage.CategoriesPageState.HandleAddSubmit | src/app/categories/page.tsx:58-72 | posts exactly `{name, description}`; success closes and clears; failure alerts |
| CategoriesPage.CategoriesPageState.HandleEditClick | src/app/categories/page.tsx:74-79 | the form takes the name and the description, a missing one as "" |
| CategoriesPage.CategoriesPageState.HandleEditSubmit | src/app/categories/page.tsx:81-95 | without a current category nothing happens; otherwise patches exactly `{name, description}` |
| CategoriesPage.CategoriesPageState.HandleDeleteClick | src/app/categories/page.tsx:97-100 | the category becomes current and the delete dialog opens |
| CategoriesPage.CategoriesPageState.HandleDeleteSubmit | src/app/categories/page.tsx:102-115 | without a current category nothing happens; otherwise its id is deleted |
| CategoriesPage.AddAfterEdit | src/app/categories/page.tsx:58-136 | adding right after an edit posts the edited category's description with the new name |
| Calendar.YearOfEra | src/app/reports/page.tsx:73 | a day of a 400-year era splits into a year of the era and a day of that year that add back up to it |
| Calendar.MonthOfYear | src/app/reports/page.tsx:73 | a day of a March-based year splits into a month and a day 1..31 that add back up to it |
| Calendar.CivilFromDays | src/app/reports/page.tsx:73 | the date of a day has a month 1..12 and a day 1..31 |
| Calendar.DaysFromCivilFromDays | src/app/reports/page.tsx:73 | every day number is recovered from its date |
| Calendar.Weekday | src/app/reports/page.tsx:82 | `getDay` is in 0..6 |
| Calendar.MondayOffset | src/app/reports/page.tsx:83 | the step back is in 0..6 and lands on weekday 1 |
| Calendar.MondayOfIsLatestMonday | src/app/reports/page.tsx:81-84 | the week start is a Monday at most six days back, with no Monday after it up to the day itself |
| Calendar.MondayOf | src/app/reports/page.tsx:81-84 | the week start is a Monday at most six days back |
| Calendar.MondayOfMonday | src/app/reports/page.tsx:81-84 | a Monday is its own week start, and so is the Monday seven days later |
| Calendar.Pad | src/app/reports/page.tsx:73 | zero-padding gives digits of at least the width that still read as the number |
| Calendar.YearString | src/app/reports/page.tsx:73 | the year part of the ISO string is never empty |
| Calendar.IsoDate | src/app/reports/page.tsx:73 | the written date is never empty |
| Calendar.ParseIsoDate | src/app/reports/page.tsx:115 | only strings shaped `YYYY-MM-DD` read as a date |
| Calendar.ParseIsoDateOfPieces | src/app/reports/page.tsx:115 | a padded year, month and day read as the day number of that date |
| Calendar.ParseIsoDateOfIsoDate | src/app/reports/page.tsx:115 | a written date reads back as the same day |
| Calendar.IsoDateOrder | src/app/reports/page.tsx:115 | two written dates compare as their days do, and are equal exactly for the same day |
| Calendar.MonthKey | src/app/reports/page.tsx:74 | `slice(0, 7)` is a prefix of at most seven characters |
| Calendar.MonthKeyOfIsoDate | src/app/reports/page.tsx:73-74 | the month key is `YYYY-MM`, and `YYYY-MM-01` reads as the first day of the month |
| ReportsPage.TypeName | src/app/reports/page.tsx:135-139 | a report type's name is non-empty and has no '-' |
| ReportsPage.TypeOfName | src/app/reports/page.tsx:135 | a recognised name names its type |
| ReportsPage.TypeOfNameOfType | src/app/reports/page.tsx:135 | each type is recovered from its own name |
| ReportsPage.ReplyData | src/app/reports/page.tsx:87-89 | a failed request reads as null; a reply as its data |
| ReportsPage.BestSellersOf | src/app/reports/page.tsx:97 | the daily report's truthy `bestSellers` member, else `[]`; always truthy |
| ReportsPage.FailedDailyHasNoBestSellers | src/app/reports/page.tsx:87-97 | a failed daily request leaves the best sellers empty |
| ReportsPage.LoadedData | src/app/reports/page.tsx:92-98 | after the load, custom is null and the best sellers come from the daily reply |
| ReportsPage.DatesOfDay | src/app/reports/page.tsx:73-84 | on a four-digit-year day, `today` reads back as that day, `monday` as the latest Monday not after it, and `currentMonth` is its `YYYY-MM`, whose `-01` reads as the first of the month |
| ReportsPage.DatesOf | src/app/reports/page.tsx:73-84 | `currentMonth` is a prefix of `today` of at most seven characters |
| ReportsPage.LoadRequests | src/app/reports/page.tsx:86-90 | the daily, weekly and monthly requests ask for today, the week's Monday and the current month |
| ReportsPage.CheckRange | src/app/reports/page.tsx:110-118 | refused as missing exactly when either date is empty; as reversed exactly when both read as dates and the start is later |
| ReportsPage.SameDayAccepted | src/app/reports/page.tsx:115 | a one-day range is accepted |
| ReportsPage.RangeOfDays | src/app/reports/page.tsx:110-118 | on written dates a range is refused exactly when its start is after its end |
| ReportsPage.PdfParamsKeys | src/app/reports/page.tsx:139-153 | `type` names the report, and each type sends exactly its own keys, with the clock's dates or, for custom, the chosen range |
| ReportsPage.PdfParams | src/app/reports/page.tsx:139-153 | `type` names the report; only custom sends an end date, and only weekly and custom a start date |
| ReportsPage.PdfFilename | src/app/reports/page.tsx:164 | the file name starts with `laporan-` |
| ReportsPage.ParsePdfFilenameOf | src/app/reports/page.tsx:164 | the file name gives back the report type and today's day |
| ReportsPage.FailedLoadUnavailable | src/app/reports/page.tsx:215-237 | a failed request leaves its report unavailable (its download disabled), and custom is unavailable after the load |
| ReportsPage.Available | src/app/reports/page.tsx:215-237 | a null report is never available, so nothing is before the first load |
| ReportsPage.PaymentSlices | src/app/reports/page.tsx:340-393 | one slice per payment entry, with its name and value, the i-th coloured `COLORS[i % 5]` |
| ReportsPage.SliceColorsCycle | src/app/reports/page.tsx:392 | two slices share a colour exactly when they are a multiple of five apart |
| ReportsPage.ReportContent | src/app/reports/page.tsx:334-470 | no report gives the empty state; a missing or null `summary`, a falsy `bestSellers` other than null (0, false, ""), or a null among the listed items, makes rendering throw; otherwise the slices of the payment entries (none without them), and the first five best sellers and first ten transactions (none without a list), none of them null |
| ReportsPage.RenderedIff | src/app/reports/page.tsx:337-470 | a report with a summary is shown exactly when its `bestSellers` is not a falsy non-null value and none of its first five best sellers and first ten transactions is null |
| ReportsPage.TopProductsShown | src/app/reports/page.tsx:416 | a shown report lists exactly the first five best sellers, or all of them when fewer |
| ReportsPage.TransactionsShown | src/app/reports/page.tsx:470 | a shown report lists exactly the first ten transactions, or all of them when fewer |
| ReportsPage.ReportsPageState.constructor | src/app/reports/page.tsx:59-70 | loading, every report null, no best sellers, no range |
| ReportsPage.ReportsPageState.FetchData | src/app/reports/page.tsx:76-107 | makes the three requests for the clock day's dates and sets the loaded data; loading ends |
| ReportsPage.ReportsPageState.SetStartDate | src/app/reports/page.tsx:256 | the input sets only the start date |
| ReportsPage.ReportsPageState.SetEndDate | src/app/reports/page.tsx:265 | the input sets only the end date |
| ReportsPage.ReportsPageState.FetchCustomReport | src/app/reports/page.tsx:109-133 | a refused range alerts and changes nothing; otherwise a reply replaces only `custom`, a failure alerts, and the spinner ends off |
| ReportsPage.ReportsPageState.BuildPdfParams | src/app/reports/page.tsx:139-153 | the params built key by key equal the params for that report type |
| ReportsPage.ReportsPageState.DownloadPdf | src/app/reports/page.tsx:135-175 | sends those params; success saves under the file name, failure alerts; the spinner ends off |
| ReportsPage.ReportsPageState.DownloadDisabled | src/app/reports/page.tsx:214-237 | a download button is enabled only with its report available and no export running |

## Left out

- HTTP, `Promise.all` and async ordering are not modelled. Each request's reply or outcome is a parameter (for the product image upload: a reply, or a rejection with the server's error text), and the re-fetch a page starts after a successful submit is not modelled.
- JSX rendering, styling, dialogs, recharts charts and `alert` display are not modelled. Alerts are returned as strings.
- The Blob/object-URL/anchor mechanics of the PDF download, the `FormData` upload and the `FileReader` preview are not modelled. The preview's data URL is a parameter.
- The browser's own `required` form validation is not modelled.
- Time zones are not modelled, and all dates are taken in UTC. The source takes `today` from `toISOString` (UTC) but the week's Monday from the local `getDay`/`getDate`, so near midnight in a zone off UTC the two can disagree by a day.
- Calendar.ParseIsoDate reads only `YYYY-MM-DD`. Any other string reads as an invalid date (NaN), though an engine may parse more. A day past the month's end (such as `2024-02-31`) rolls into the next month, as V8 does; another engine may reject it instead.
- Calendar.IsoDate: the date-string round trip is proved only for years 0..9999. Years outside that range are written in the extended six-digit form, and `toISOString` throws past year 275760; neither case is modelled further.
- Floating point is not modelled:
  - `parseFloat(price)` and `parseInt(stock)` of the form: the submits take the parsed numbers as parameters;
  - the dashboard's revenue percentages;
  - the best-seller bar width.
- The dashboard page (`src/app/page.tsx`), `Header.tsx` and `next.config` are not part of this model.
- Strings.ParseInt reads an optional '-' and then digits. `parseInt` also skips leading blanks and accepts a '+' sign; the form's fields never need either, so those are not modelled.
- ProductService.UpdatePayload: a `description` of `null` (which `!== undefined` would send) is not modelled, because `ProductPatch.description` is optional text. The products page never passes `null`.
- `toLowerCase` is modelled on ASCII letters only. Non-ASCII case mapping is not modelled.
- Urls.Parse models only the `URL` features the image rewrite relies on: it needs `scheme://` (`new URL` also reads `http:host`) and refuses ports that are not numbers up to 65535. It does not resolve `.` and `..` path segments, drop default ports or zero padding, fold case or percent-encode; it keeps such text as written. It does not read userinfo: a `user@` prefix stays in the host. It reads IPv6 hosts, Punycode labels and IPv4 forms (`1.2.3`, `256.1.1.1`) as plain text, and it accepts host characters (a space, say) on which `new URL` throws.
- Urls.WithOrigin replaces the protocol outright. The `protocol` setter refuses to switch between special schemes (such as http) and others (such as `httpx`), and that refusal is not modelled.
- UploadsRehosted: stated only for http(s) URLs whose path holds no dot segment and no character `new URL` rewrites, against an http(s) base whose port is neither zero-padded nor the default. Both hosts must be plain: a dotted-decimal IPv4 address with parts up to 255, or a domain of lower-case letters, digits, '-' and '.' that does not end in '.', has no `xn--` label and whose last label is not a number. For other URLs `new URL` throws, reads userinfo, resolves, re-encodes or re-reads an IPv4 host, or the setter refuses the protocol, and the model's rewrite is not claimed. The plain-host condition also leaves out some hosts `new URL` would keep, such as a domain ending in '.'.
- DefaultBaseRehost: stated under the same conditions on the URL as UploadsRehosted; the default base itself meets the base's conditions (DefaultImageBaseCanonical).
- OtherAbsoluteUrlsKept: stated only for URLs whose host holds lower-case letters, digits, '-' and '.' and whose path and tail are written as `new URL` writes them; otherwise `new URL` may find an `/uploads` path the written text does not show (`/x/../uploads`, or a backslash in the host). "A base that does not parse" means this model's Parse, which refuses some bases `new URL` reads (such as `http:host`); with those the source rewrites where the model keeps the URL.
- ReportsPage.ReportContent: `revenueByPaymentMethod` is given as the entry list `Object.entries` yields, in order. A non-object value there (whose entries JavaScript would still enumerate) is not modelled. A truthy `bestSellers` or `transactions` that is not an array (on which `.slice` or `.map` throws) is not modelled; a falsy `bestSellers` other than null is modelled, and makes rendering throw. The summary cards' `|| 0` fallbacks are display only.
- AuthContext.Restored: `JSON.parse` of the user cookie is a parameter returning a user or failing. A cookie that parses to a non-user value is not modelled.
- LoginPage.FinishSubmit: a reply whose body is null (destructuring it throws a TypeError whose message is then shown) is not modelled apart from the general `Failed` outcome.
- The request-side error handler of the HTTP client is the identity and is not modelled. The interceptors are modelled on values rather than by mutating the config and response objects.
