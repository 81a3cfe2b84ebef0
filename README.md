# FakeStore proxy handlers, modelled in Dafny

The system is a thin Express service. Its controllers forward inbound
calls to `https://fakestoreapi.com` and relay the answer. The 18 non-login
handlers (seven cart, six user and five product) each do the same three
things:

- build one upstream request: a verb, a URL made from the base URL, the
  resource, an optional route parameter and an optional query string, and
  for POST, PUT and PATCH the inbound body;
- make the call;
- turn the outcome into a status and a JSON body.

The login handler differs (`Auth.Login`):

- It answers 400 without calling upstream when a credential is falsy.
- Otherwise it sends a body rebuilt from `username` and `password` alone.
- It answers 200 with `{token, status: 'success'}` when the call succeeds.
- It answers 401 `{error: 'Invalid credentials', details}` for anything
  its `try` block throws. That covers a failed call, a `null` body and
  `null` upstream data.

This project models those handlers as functions and methods over values.
The network call is not modelled. Its result is an input `Outcome`, either
`Success(status, data)` or `Failure(message)`, and every handler returns an
`Exchange`: the upstream request it sent, if any, and the response it gave.

Modules, one file each:

- `Json` (`json.dfy`): parsed JSON values, reading a property the way
  JavaScript does (an absent property is `undefined`), and JavaScript
  truthiness.
- `Http` (`http.dfy`): requests, upstream requests, outcomes, responses, the
  base URL, and the relay every handler except login shares. The relay
  answers a success with 201 for create handlers and Express's default 200
  otherwise, and any failure with 500 `{error: message}`.
- `QueryString` (`querystring.dfy`): `name=value` entries inserted verbatim,
  `Array.prototype.join`, and the query suffix (`?` plus the `&`-joined
  entries, or nothing). It also defines a reading-back function,
  `ParseQuery`, which is used to state round trips. It splits at `&`, then
  at the first `=`, and does no decoding. The cart and user builders forward parameter *groups*: a
  group of names is forwarded, in order, only when every name in it is
  present. The date range is a group of two.
- `Forwarding` (`forwarding.dfy`): the forwarding pattern written once as
  data. A `Rule` gives the verb, the resource, the route parameter, the
  query groups, whether the body is sent and whether success is 201.
  `Forward` is the reference definition every non-login handler is proved
  equal to.
- `Carts`, `Users`, `Products`, `Auth`: the handlers as each controller
  writes them. `getAllCarts`, `getUserCarts` and `getAllUsers` build their
  URL step by step, so they are methods. Each method is proved equal to the
  rule's `Forward`. The remaining handlers are single expressions, so they
  are functions, proved equal to their rule's row. Login has its own
  contract.

## Model

| member | source | states |
|---|---|---|
| Json.Lookup | controllers/authController.js:9 | a field read from a parsed object is `undefined` exactly when no field has that key; otherwise it is the value of the last field with that key |
| Json.MemberLastKeyWins | controllers/authController.js:9 | when an object repeats a key, reading that property gives the value of the last field with that key, whatever other fields follow it |
| Json.FalsyValues | controllers/authController.js:12 | a value is falsy exactly when it is `undefined`, `null`, `false`, `0` or `""` |
| Http.BaseUrlHasNoQuery | controllers/cartController.js:3 | the base URL holds neither `?` nor `&` |
| Http.ErrorBody | controllers/cartController.js:30-31 | the failure body has the single key `error`, holding the failure's message |
| Http.Relay | controllers/cartController.js:28-31 | a success is relayed with its data unchanged, as 201 for create handlers and 200 otherwise; a failure is a 500 whose `error` is the message |
| Http.RelayIgnoresUpstreamStatus | controllers/cartController.js:29 | the status upstream reported never reaches the caller |
| Http.RelayStatusSeparatesOutcomes | controllers/cartController.js:28-32 | a relayed status is 500 exactly for failures and 2xx exactly for successes |
| QueryString.PresentMeansNonEmpty | controllers/cartController.js:13-22 | `if (x)` on a query value holds exactly when the key is there and its value is not empty |
| QueryString.Renders | controllers/cartController.js:14-21 | one `name=value` entry per parameter, in order |
| QueryString.RendersPush | controllers/cartController.js:14-21 | pushing `name=` followed by the value renders one more parameter |
| QueryString.SplitJoin | controllers/cartController.js:25 | splitting a `join` at its separator gives back the parts, when no part holds the separator |
| QueryString.JoinAvoids | controllers/cartController.js:25 | a character in neither the parts nor the separator is not in the `join` |
| QueryString.ParseRender | controllers/cartController.js:14 | an entry whose name has no `=` reads back as its name and value |
| QueryString.ParseRenders | controllers/cartController.js:14-21 | a list of such entries reads back as the same parameters |
| QueryString.SuffixRoundTrip | controllers/cartController.js:24-25 | a non-empty suffix is `?` and the joined entries, and `ParseQuery` reads it back as exactly the forwarded parameters when names hold no `=` or `&` and values no `&` |
| QueryString.OccurrencesAppend | controllers/cartController.js:25 | the number of occurrences of a character in a concatenation is the sum over its parts |
| QueryString.SuffixQuestionMarks | controllers/cartController.js:24-25 | the suffix holds no `?` when nothing is forwarded and exactly one otherwise, when no name or value holds one |
| QueryString.AppendSuffix | controllers/cartController.js:24-26 | appending `?` and the joined entries only when the list is non-empty is appending the suffix |
| QueryString.OpenTwoEntries | controllers/userController.js:13-17 | `?a=x&b=y`, written by hand, is the suffix of the two parameters |
| QueryString.OpenOneEntry | controllers/userController.js:13-17 | `?a=x`, written by hand, is the suffix of the one parameter |
| QueryString.SuffixedUrlReadBack | controllers/cartController.js:24-25 | a URL with a suffix is the prefix, `?` and the joined entries, and `ParseQuery` reads those entries back as the parameters |
| QueryString.InjectedEntry | controllers/cartController.js:21 | values are not encoded: `ParseQuery` reads a value holding `&name=value` back as two entries |
| QueryString.SuffixedUrlQuestionMarks | controllers/cartController.js:24-25 | a `?`-free prefix followed by a suffix holds no `?` when nothing is forwarded and exactly one otherwise |
| QueryString.Values | controllers/cartController.js:14-15 | a complete group forwards each of its names with the query's value, in order |
| QueryString.QueryParamsConcat | controllers/cartController.js:13-22 | forwarding groups one after another forwards the concatenation of what each forwards |
| QueryString.OneNameGroup | controllers/cartController.js:17-19 | a one-name group forwards its parameter exactly when present |
| QueryString.TwoNameGroup | controllers/cartController.js:13-16 | a two-name group is forwarded as a pair when both are present and not at all otherwise |
| QueryString.QueryParamsReadOnlyNames | controllers/cartController.js:9 | query parameters outside the groups never affect what is forwarded |
| QueryString.QueryParamsVerbatim | controllers/cartController.js:14-21 | every forwarded entry has a present name from the groups and that name's value verbatim |
| Forwarding.Forward | controllers/cartController.js:36-44 | exactly one upstream call with the rule's verb and URL; the body `req.body` is sent exactly when the rule says so; success gives 201 or 200 with the data; failure gives 500 with the message |
| Forwarding.TargetWithoutPathParam | controllers/cartController.js:10 | without a route parameter the URL is base, resource and suffix |
| Forwarding.TargetWithPathParam | controllers/cartController.js:39 | with a route parameter the URL is the base, the resource and `/`, the parameter as given, then the suffix |
| Forwarding.TargetQuestionMarks | controllers/cartController.js:24-25 | with no `?` in the resource, names or values, a target holds exactly one `?` when parameters are forwarded and none otherwise |
| Forwarding.TargetReadBack | controllers/cartController.js:24-25 | with separator-free names and `&`-free values, `ParseQuery` reads back exactly the forwarded parameters, in order and verbatim |
| Forwarding.SentBeforeOutcome | controllers/cartController.js:28-29 | what is sent upstream does not depend on how the call settles |
| Forwarding.TargetReadsOnlyRuleNames | controllers/cartController.js:50-55 | requests that agree on the route parameters and on the rule's query names are forwarded to the same URL |
| Carts.AllCartsGroupsInTurn | controllers/cartController.js:13-22 | getAllCarts forwards the date pair (both or neither), then `limit`, then `sort`, each only when present |
| Carts.AllCartsUrl | controllers/cartController.js:10-26 | the URL built by pushing entries and joining them behind `?` is the base, `/carts` and the suffix of the forwarded parameters |
| Carts.GetAllCarts | controllers/cartController.js:7-33 | the handler is the forwarding table's getAllCarts row |
| Carts.GetUserCarts | controllers/cartController.js:47-62 | the handler, with its hand-appended date pair, is the table's getUserCarts row |
| Carts.CartHandlersFollowTable | controllers/cartController.js:36-105 | getCartById, addCart, updateCart, patchCart and deleteCart are their table rows |
| Carts.CartByIdTargets | controllers/cartController.js:36-105 | the four by-id handlers target `/carts/{id}`; only PUT and PATCH send a body, and it is `req.body` unchanged |
| Carts.CartResponses | controllers/cartController.js:7-105 | addCart answers a success with 201 and the other six with 200, all with the data unchanged; every failure is 500 `{error: message}` |
| Carts.AllCartsOrder | controllers/cartController.js:13-22 | forwarded parameters come in the order startdate, enddate, limit, sort, each once, with the value verbatim |
| Carts.AllCartsForwarded | controllers/cartController.js:13-22 | the dates are forwarded only together; `limit` and `sort` exactly when present |
| Carts.AllCartsBareUrl | controllers/cartController.js:10-26 | with no date pair, no `limit` and no `sort`, the target is exactly the base and `/carts`, with no `?` |
| Carts.AllCartsNamesPlain | controllers/cartController.js:9 | getAllCarts forwards only names free of `=`, `&` and `?` |
| Carts.AllCartsReadBack | controllers/cartController.js:13-26 | with the values of the four forwarded names free of `&` and `?` (other keys may hold anything), the URL is base, `/carts`, one `?` and the joined entries, and `ParseQuery` reads it back as exactly the forwarded parameters; it holds exactly one `?` when anything is forwarded and none otherwise |
| Carts.SortOnlyUrl | controllers/cartController.js:20-26 | with only `sort` forwarded, the target is `/carts?sort=S` with `S` as given |
| Carts.InjectedLimit | controllers/cartController.js:21 | the entry `sort=desc&limit=1` reads back as `sort=desc` and `limit=1` |
| Carts.UnencodedValueAddsEntries | controllers/cartController.js:20-25 | a `sort` value `desc&limit=1` enters the URL unencoded, and `ParseQuery` reads it back with an extra `limit` entry |
| Carts.UserCartsTarget | controllers/cartController.js:49-55 | getUserCarts targets `/carts/user/{userId}`, followed by `?startdate=S&enddate=E` exactly when both dates are present |
| Carts.UserCartsIgnoresLimitAndSort | controllers/cartController.js:50-55 | `limit` and `sort` never change getUserCarts' target |
| Users.AllUsersParams | controllers/userController.js:13-17 | getAllUsers forwards `limit` and then `sort`, each exactly when present |
| Users.AllUsersSuffix | controllers/userController.js:13-17 | the join-based suffix is `?limit=L&sort=S`, `?limit=L`, `?sort=S` or nothing, by which parameters are present |
| Users.AllUsersTarget | controllers/userController.js:10-18 | the target is the bare `/users` URL with neither parameter, and otherwise ends in `?limit=L`, `?sort=S` (never `&sort`) or `?limit=L&sort=S` |
| Users.AllUsersUrl | controllers/userController.js:10-18 | the hand-built `?`/`&` URL equals the base, `/users` and the join-based suffix of the present `[limit, sort]` entries |
| Users.GetAllUsers | controllers/userController.js:7-25 | the handler is the forwarding table's getAllUsers row |
| Users.UserHandlersFollowTable | controllers/userController.js:28-79 | getUserById, addUser, updateUser, patchUser and deleteUser are their table rows |
| Users.UserByIdTargets | controllers/userController.js:28-79 | the four by-id handlers target `/users/{id}`; only PUT and PATCH send a body, and it is `req.body` unchanged |
| Users.UserResponses | controllers/userController.js:7-79 | addUser answers a success with 201 and the other five with 200, with the data unchanged; every failure is 500 `{error: message}` |
| Users.AllUsersNames | controllers/userController.js:9 | getAllUsers forwards `limit` and `sort` and no other name |
| Users.AllUsersOneQuestionMark | controllers/userController.js:13-17 | with no `?` in the values, the target holds exactly one `?` when a parameter is forwarded and none otherwise |
| Products.ProductHandlersFollowTable | controllers/productController.js:7-57 | the five product handlers are their table rows |
| Products.AllProductsIgnoresQuery | controllers/productController.js:7-14 | getAllProducts always targets the bare `/products` URL, with no `?`, whatever the query |
| Products.ProductTargets | controllers/productController.js:17-57 | the by-id handlers target `/products/{id}` and only PUT sends a body; addProduct posts `req.body` unchanged to `/products` |
| Products.ProductVerbs | controllers/productController.js:7-57 | each product handler makes exactly one upstream call, with the verb of its route |
| Products.ProductResponses | controllers/productController.js:7-57 | addProduct answers a success with 201 and the others with 200, with the data unchanged; every failure is 500 `{error: message}` |
| Auth.Unauthorized | controllers/authController.js:27-31 | the 401 body has the keys `error` and `details`, holding `Invalid credentials` and the message |
| Auth.Credentials | controllers/authController.js:18-21 | the forwarded body has exactly the keys `username` and `password`, holding the two inbound values |
| Auth.SuccessBody | controllers/authController.js:23-26 | the 200 body holds the upstream token (left out when undefined) and `status: 'success'`, and no other key |
| Auth.Login | controllers/authController.js:7-33 | a call is made exactly when both fields are truthy. It is a POST to `/auth/login` carrying only the two fields. No call means 400 with the required-fields message, or 401 for a null body. A failed call means exactly 401 `{error: 'Invalid credentials', details: message}`. A successful call means exactly 200 `SuccessBody(token)`: the token (left out when undefined) and `status: 'success'`, nothing else; or 401 when the data is `null` |
| Auth.RejectedBeforeCall | controllers/authController.js:12-18 | a 400 answer sends nothing and does not depend on the outcome; it is given exactly when a field is falsy |
| Auth.OnlyCredentialsForwarded | controllers/authController.js:9-21 | bodies that agree on `username` and `password` are handled identically, whatever else they carry |
| Auth.OnlyTokenRelayed | controllers/authController.js:23-26 | successes whose data agree on `token` are answered identically, with 200 when a call was made |
| Auth.LoginStatuses | controllers/authController.js:7-33 | login answers only 200, 400 or 401, and 200 only after a successful call |

## Left out

- The HTTP client calls to the upstream host are network I/O. Each one is
  replaced by the `Outcome` input and the recorded upstream request.
- `async`/`await` and concurrency are not modelled. Requests share no state.
- The route files, the server wiring and the Swagger configuration are not
  modelled. Route matching is Express's, and those files hold no handler
  logic.
- JSON parsing and serialisation are outside the model. Bodies are `Value`
  trees, and numbers are integers.
- Express's handling of repeated query keys as arrays is outside the model.
  Query values are single strings.
- `ParseQuery` is not a model of what the upstream server receives. It is
  the plain inverse of the builder and is used to state round trips. A real
  HTTP stack differs in three ways:
  - the client sends no fragment, so a value holding `#` is cut off there;
  - the client may normalise characters such as spaces;
  - the server decodes `+` and `%xx` sequences.

  None of this is modelled. The read-back lemmas speak of `ParseQuery` only.
- The wording of the two TypeErrors that login can raise is the JavaScript
  engine's, not the repository's. It is modelled as two constants.
- An exception raised by `res.json` itself is not modelled.
