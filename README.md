# Session-aware HTTP client and product helpers of an e-commerce front end

This project models the three pieces of the shop's React front end that have
behaviour of their own, apart from the UI and the libraries it sits on:

- **The error normaliser** (`handleApiError`). Every transport failure becomes
  one `ApiError {message, code?, status?}`. A failure carries a response with a
  numeric status and an optional body, or only a request that got no answer,
  or neither. The mapping is a closed, total case analysis over the eight codes
  BAD_REQUEST, UNAUTHORIZED, FORBIDDEN, NOT_FOUND, SERVER_ERROR, UNKNOWN_ERROR,
  NETWORK_ERROR and REQUEST_ERROR (module `ApiErrors`, pure functions).
- **The interceptors of the shared HTTP client**, modelled over the state they
  touch (module `Interceptors`). Class `ApiClient` holds the browser's
  key-value session store (`localStorage`) as a `map<string, string>` and the
  current path. Class `RequestConfig` holds the headers of one outgoing
  request, which the request interceptor edits in place. Before a request is
  sent, a stored non-empty token is attached as `Authorization: Bearer <token>`.
  On a failure with status 401, `token` and `user` are removed from the store
  and, in a browser, the client navigates to `/login` unless the path already
  contains `/login`. Every failure is then rejected with the normalised error.
- **The product facade** (module `ProductService`, pure functions). These are
  the display helpers `getImageUrl`, `isInStock` and `getStockStatus`, and the
  three list wrappers. The wrappers pass only `limit` and `offset` to the
  products query and turn a missing list into the empty one.

`String.prototype.includes`, which the redirect rule calls, is modelled in
module `Strings` by a left-to-right scan whose contract says it agrees with
"the substring occurs at some index".

The client's `ERROR_MESSAGES` table lives in a configuration module that is
not part of this model. Its texts are therefore a parameter of the normaliser
(datatype `ErrorMessages`). The built-in text "Dữ liệu không hợp lệ" for a
rejected request is modelled as it is written.

Two details of the code matter. A token is attached only when the stored
entry is truthy, so an empty stored token counts as no token. The 401 rule
tests the raw response status, and it runs before the error is normalised.

## Model

| member | source | states |
|---|---|---|
| `Strings.Includes` | Frontend/app/api/axios.ts:38 | `pathname.includes("/login")`: the left-to-right scan returns true exactly when the substring occurs at some index |
| `ApiErrors.MessageOr` | Frontend/app/api/error.ts:18 | `data?.message \|\| fallback`: the body's message when it is present and non-empty, otherwise the fallback text |
| `ApiErrors.HandleApiError` | Frontend/app/api/error.ts:9-66 | total; a code is always set; `status` is present exactly when a response exists and then equals its status; each of BAD_REQUEST, UNAUTHORIZED, FORBIDDEN, NOT_FOUND, SERVER_ERROR is given exactly for status 400, 401, 403, 404, 500; UNKNOWN_ERROR exactly for a response with any other status; NETWORK_ERROR exactly when there is no response but a request; REQUEST_ERROR exactly when there is neither |
| `ApiErrors.MessageSource` | Frontend/app/api/error.ts:16-65 | BAD_REQUEST and UNKNOWN_ERROR take the body's message with their own fallback; the other six codes take their fixed table text; REQUEST_ERROR reuses the unknown-error text |
| `ApiErrors.ResponseDecides` | Frontend/app/api/error.ts:10-53 | when a response is present the request field plays no part in the result |
| `ApiErrors.FixedCodesIgnoreBody` | Frontend/app/api/error.ts:22-45 | for statuses 401, 403, 404 and 500 the body is ignored: equal statuses give equal errors |
| `ApiErrors.NameInjective` | Frontend/app/api/error.ts:19-63 | the eight code tags are pairwise distinct strings |
| `Interceptors.StoredToken` | Frontend/app/api/axios.ts:16-17 | the token is used exactly when the store holds a non-empty entry under `token`, and it is that entry |
| `Interceptors.BearerValue` | Frontend/app/api/axios.ts:18 | the `Bearer ${token}` header value gives back exactly the token it was built from |
| `Interceptors.WithToken` | Frontend/app/api/axios.ts:15-21 | with a stored token, `Authorization` carries that token; without one the headers are unchanged; no other header is added, removed or changed |
| `Interceptors.ApiClient.InterceptRequest` | Frontend/app/api/axios.ts:15-21 | edits the given config's headers in place as `WithToken` says, returns that same config, and leaves the store and location alone |
| `Interceptors.ApiClient.InterceptRequestError` | Frontend/app/api/axios.ts:22-24 | a failure before sending is rejected unchanged |
| `Interceptors.ApiClient.InterceptResponse` | Frontend/app/api/axios.ts:29 | a successful response passes through unchanged; store and location are untouched |
| `Interceptors.IsUnauthorized` | Frontend/app/api/axios.ts:31 | `error.response?.status === 401` holds exactly for the failures the normaliser tags UNAUTHORIZED, whatever the message table |
| `Interceptors.ClearSession` | Frontend/app/api/axios.ts:33-34 | after a 401, `token` and `user` are absent and every other key keeps its value |
| `Interceptors.ClearSessionIdempotent` | Frontend/app/api/axios.ts:33-34 | clearing the session twice leaves the same store as clearing it once |
| `Interceptors.PathAfterUnauthorized` | Frontend/app/api/axios.ts:36-41 | the location changes exactly when running in a browser and the path does not contain `/login`, and then it becomes `/login` |
| `Interceptors.PathAfterUnauthorizedLandsOnLogin` | Frontend/app/api/axios.ts:36-41 | in a browser the resulting path always contains `/login`; outside a browser the path never moves |
| `Interceptors.PathAfterUnauthorizedIdempotent` | Frontend/app/api/axios.ts:36-41 | a second 401 does not move the location again |
| `Interceptors.ApiClient.InterceptResponseError` | Frontend/app/api/axios.ts:30-47 | rejects with the normalised error for every failure; on a 401 the store is cleared and the path redirected as above; any other failure leaves store and path unchanged |
| `Interceptors.UnauthorizedTwice` | Frontend/app/api/axios.ts:31-42 | two 401 failures in a row leave the same store and path as one |
| `ProductService.GetImageUrl` | Frontend/app/service/productService.ts:89-91 | the image when it is a non-empty string, otherwise `/placeholder-product.jpg`; never empty |
| `ProductService.GetImageUrlIdempotent` | Frontend/app/service/productService.ts:89-91 | resolving an already resolved URL changes nothing |
| `ProductService.StockOf` | Frontend/app/service/productService.ts:94 | an absent stock counts as 0 |
| `ProductService.IsInStock` | Frontend/app/service/productService.ts:93-95 | true exactly when a stock is present and positive |
| `ProductService.LevelOf` | Frontend/app/service/productService.ts:98-101 | the three levels partition the integers: above 10, 1 to 10, and 0 or below |
| `ProductService.GetStockStatus` | Frontend/app/service/productService.ts:97-102 | "Còn hàng" above 10, "Sắp hết hàng" from 1 to 10, "Hết hàng" otherwise, as the label of the stock's level |
| `ProductService.LabelInjective` | Frontend/app/service/productService.ts:99-101 | the three labels are distinct |
| `ProductService.StockStatusAgreesWithIsInStock` | Frontend/app/service/productService.ts:93-102 | the status is "Hết hàng" exactly when `isInStock` is false |
| `ProductService.StockLevelMonotone` | Frontend/app/service/productService.ts:98-101 | more stock never gives a lower level |
| `ProductService.OrEmpty` | Frontend/app/service/productService.ts:20-26 | the fetched list when there is one, the empty list otherwise; loading and error pass through |
| `ProductService.UseProducts` | Frontend/app/service/productService.ts:9-27 | the list the products query returns for the given limit and offset, or the empty list when it returns none; loading and error are the query's |
| `ProductService.UseSearchProducts` | Frontend/app/service/productService.ts:42-58 | equals `useProducts` with the same paging and no filters: the search term never reaches the query |
| `ProductService.UseProductsByCategory` | Frontend/app/service/productService.ts:61-77 | equals `useProducts` with the same paging and no filters: the category never reaches the query |
| `ProductService.FiltersIgnored` | Frontend/app/service/productService.ts:9-18 | the `search` and `categoryId` arguments of `useProducts` have no effect on its result |

## Left out

- `ERROR_MESSAGES` and `API_CONFIG` texts and values: the configuration module is not part of this model; the messages are a parameter.
- `axios.create` configuration (base URL, timeout, default `Content-Type`) and the promise machinery: the interceptors are modelled as synchronous steps, and a rejection is modelled as the value rejected with.
- Header names are compared as exact strings; HTTP's case-insensitivity of header names plays no part in the source's code.
- `window.location.href = "/login"` is modelled as the current path becoming `/login`: `pathname` stands for the navigation target. In a browser, `location.pathname` changes only once the navigation completes, so a second 401 before then assigns `href` again; `Interceptors.UnauthorizedTwice` and `Interceptors.PathAfterUnauthorizedIdempotent` hold of the target, not of the page actually shown. The page reload itself is not modelled.
- The store is assumed to exist and never throw in every environment; `inBrowser` governs only the redirect. Where there is no `window` there is usually no `localStorage` either, and `getItem` (axios.ts line 16) or `removeItem` (line 33) would then throw, so the request fails or the rejection is that exception instead of the normalised error. That error path is not modelled.
- Races between concurrent requests on the shared store: concurrency is out of scope.
- `ApiErrors.MessageOr`: a body `message` that is not a string (a number, an object) is not modelled; the body's message is an optional string and truthy means non-empty.
- `ProductService.StockOf`: `stock` and `price` are whole numbers; fractional and NaN values of JavaScript numbers are not modelled.
- `productUtils.formatPrice`: it delegates to the locale formatter `Intl.NumberFormat`.
- `ProductService.useProduct`: a plain pass-through of the single-product query with no behaviour of its own.
- The `refetch` and `fetchMore` callbacks the wrappers return: Apollo plumbing with no behaviour in this file.
- The products query itself (Frontend/app/api/graphql/hooks.ts) is not part of this model; it is a parameter mapping the paging variables to a query state.
- Login, signup, logout and token refresh (Frontend/app/api/auth.ts, Frontend/app/api/graphql/hooks.ts) and the UI routes: their only state changes happen in library callbacks not modelled here.
