# printobackend1 in Dafny

This project models the decision logic of the printobackend1 REST backend, an Express and
MongoDB service for an online print shop, and proves properties of that model. It covers:

- the Razorpay payment pipeline: the cached gateway client, the validation chain of
  `createPaymentOrder` and the gate pipeline of `verifyPayment`;
- direct order intake and the order lookups;
- the file controller and the multer upload rules;
- the product routes: listings, creation, update, toggle and delete;
- the dashboard aggregates;
- the authentication middleware;
- the four Mongoose schemas;
- the CORS origin policy.

Each request handler is a function from the request fields and the collection it reads to
the reply and the new collection. A collection is a sequence of records in insertion order.
Where the source changes a document step by step, a class with a `seq` field holds the
collection and its methods do the same, proved equal to the handler functions. Those classes
are `FileController.FileCollection`, `ProductRoutes.ProductCatalog` and
`PaymentController.GatewayCache`. The source's loops are methods with `while` loops proved
against recursive specification functions: the required customer fields, the items, the
upload loops, the product image loop and the listing query builders.

Everything outside the program is a parameter the caller supplies:

- the clock;
- the `_id` of a new order document (new files and products take one more than the largest
  stored `_id`, `FileModel.NextId` and `ProductModel.NextId`);
- the HMAC-SHA256 of RFC 2104 over FIPS 180-4;
- the gateway's `orders.create` and `payments.fetch` replies;
- JWT verification (RFC 7519);
- Cloudinary upload results;
- `JSON.parse`, `parseFloat`, `parseInt` and `new Date(text)` (in `ProductRoutes.Parsers`);
- `Number(text)`;
- the `$text` search match.

Module layout:

| module | models |
|---|---|
| `Wrappers`, `Json`, `JsString`, `Collections`, `Hex` | shared helpers: options, JSON request values, JavaScript string methods (JavaScript white space, ASCII case mapping), counting, filtering and sorting, hex coding |
| `UserModel`, `OrderModel`, `FileModel`, `ProductModel` | models/User.js, models/Order.js, models/File.js, models/Product.js |
| `LocalStorage` | utils/localStorage.js |
| `Auth` | middleware/auth.js |
| `Cors` | the CORS part of server.js |
| `PaymentController`, `OrderController`, `FileController`, `DashboardController` | the controllers of the same names |
| `ProductRoutes` | routes/productRoutes.js |

Behaviour the model makes explicit:

- `verifyPayment` saves its order with the schema's default status "pending", although its
  reply says "completed". The handler sets `paymentStatus`, a field the Order schema does not
  have and therefore drops. `OrderModel.CompletedIsNotAStatus` records that "completed" is
  not an enum value.
- `updateOrderStatus` (both copies) goes through `findByIdAndUpdate` without validators, so
  it can store a status outside the enum (`OrderController.StatusOutsideEnumIsStored`).
- The download route is mounted before `authenticateToken` (routes/fileRoutes.js:23), so
  `req.user` is never set there and a private file can never be downloaded
  (`FileController.DownloadRouteServesOnlyPublic`).
- Files from the public multi-upload have no uploader. `uploadedBy.toString()` then throws,
  so no one, not even an admin, can update or delete them
  (`FileController.PublicUploadsAreFixed`).
- The file handlers compare `req.user.id`, but the product routes read `req.user.userId`. A
  token payload without a string `userId` can never create a product
  (`ProductRoutes.CreationNeedsUserId`).
- `POST /` parses `colorVariants` twice with the same fallback. The model parses it once,
  which gives the same value.
- `GET /single/:id` has no `isActive` filter, so inactive products are found too.
- On update, a malformed JSON field throws and gives 500.

## Model

| member | source | states |
|---|---|---|
| UserModel.ParseRole | models/User.js:8 | the role enum admits exactly "admin" and "customer" |
| UserModel.CreateUser | models/User.js:4-12 | a user is stored exactly when name, email and password are present, the role is in the enum and the email is not taken; the stored user has the given `_id`, name, email and password; role defaults to customer, orderCount and totalSpent to 0, createdAt to now |
| UserModel.CreateKeepsEmailsUnique | models/User.js:6 | the unique email index: creating a user never produces two users with the same email |
| OrderModel.Save | models/Order.js:4-29 | a save succeeds exactly when the required fields and the status enum validate and neither `_id` nor `orderId` clashes; it appends the document and nothing else |
| OrderModel.SaveKeepsKeysUnique | models/Order.js:12 | saving keeps `_id` and `orderId` unique across the collection |
| OrderModel.SaveKeepsAllValid | models/Order.js:23-27 | a collection whose documents all validate still does after a save |
| OrderModel.CompletedIsNotAStatus | models/Order.js:23-27 | "completed" is not a status value, and the default "pending" is one |
| OrderModel.FindByPaymentId | models/Order.js:13 | the lookup finds a stored order with that payment id, and finds none exactly when no order has it |
| OrderModel.FindByOrderId | models/Order.js:12 | the lookup finds a stored order with that order id, and finds none exactly when no order has it |
| OrderModel.FindByOrderIdIsTheOnly | models/Order.js:12 | under the unique index, the order found is the one order carrying that id |
| OrderModel.IndexOfId | models/Order.js:4 | the position found holds a document with that `_id`, and there is none exactly when no document has it |
| OrderModel.UpdateStatus | controllers/orderController.js:152-156 | an unknown id gives none, exactly when no order has it; otherwise only that document changes: its status becomes the update's value (kept when the update carries none, unset for null), and every other document is kept |
| OrderModel.UpdateStatusKeepsKeys | models/Order.js:12 | a status update keeps `_id` and `orderId` unique |
| OrderModel.UpdateStatusCanLeaveEnum | models/Order.js:23-27 | with no validators, a status outside the enum is stored and the document no longer validates |
| FileModel.ParseCategory | models/File.js:36-40 | the category enum admits exactly the five names, and an admitted name round-trips |
| FileModel.NewFile | models/File.js:4-70 | a record exists exactly when the required fields are given and the category is in the enum; category defaults to other, isPublic to true, description and filePath to "", downloadCount to 0; both timestamps are now |
| FileModel.MaxId | models/File.js:4 | no stored `_id` exceeds the value |
| FileModel.NextId | models/File.js:4 | the new `_id` is not taken |
| FileModel.Insert | models/File.js:4 | an insert succeeds exactly when the `_id` is free, and then appends the record |
| FileModel.InsertKeepsIdsUnique | models/File.js:4 | inserting keeps `_id` unique |
| FileModel.Touch | models/File.js:67-70 | the pre-save hook sets updatedAt to the save time and changes nothing else |
| FileModel.IndexOfId | models/File.js:4 | the position found holds that `_id`, and there is none exactly when the id is not taken |
| ProductModel.DiscountedPriceBounds | models/Product.js:155-160 | within the schema bounds the discounted price lies in [0, price] and equals price·(100 − discount)/100 |
| ProductModel.CastTags | models/Product.js:52-55 | the cast succeeds exactly on a string or an array of strings; a string becomes the one tag it trims to, an array each element trimmed in order |
| ProductModel.EmptyStringTag | models/Product.js:52-55 | the empty string casts to one empty tag |
| ProductModel.CastStringMap | models/Product.js:56-60 | the cast succeeds exactly on an object whose values are all strings, keeping its keys and values |
| ProductModel.CastPrinting | models/Product.js:97-114 | absent or empty printing options take the sub-path defaults |
| ProductModel.CastBusiness | models/Product.js:116-133 | absent or empty business info takes the sub-path defaults |
| ProductModel.NewProduct | models/Product.js:4-146 | a product is created exactly when the trimmed name, description, creator, category and image are non-empty, the price is a number ≥ 0, the discount a number in [0, 100], the stock a number and every nested field casts; it then validates and is active, not featured, in stock, rating 0, no updater, both timestamps now, every given field cast from the draft |
| ProductModel.MaxId | models/Product.js:4 | no stored `_id` exceeds the value |
| ProductModel.NextId | models/Product.js:4 | the new `_id` is not taken |
| ProductModel.IndexOfId | models/Product.js:4 | the position found holds that `_id`, and there is none exactly when the id is not taken |
| LocalStorage.Admit | utils/localStorage.js:30-59 | a file is accepted exactly when its MIME type is one of the eleven listed and its size is at most 50·1024·1024 bytes; a type off the list is the filter's error |
| LocalStorage.ExtName | utils/localStorage.js:24 | the extension is empty or a suffix starting at the last dot, and empty when there is no dot |
| LocalStorage.BaseName | utils/localStorage.js:23 | the base name is the prefix before the first dot |
| LocalStorage.StoredFileNameKeepsSimpleName | utils/localStorage.js:20-26 | a name with one inner dot is split into base and extension that rebuild it, giving `<base>_<time><ext>` |
| LocalStorage.StoredFileNameParts | utils/localStorage.js:20-26 | the stored name starts with the base name and "_", and different times give different names |
| LocalStorage.BaseNameOf | utils/localStorage.js:23 | the base name of `b.rest` is `b` when `b` has no dot |
| LocalStorage.ExtNameOf | utils/localStorage.js:24 | the extension of `pre.e` is `.e` when `e` has no dot |
| LocalStorage.MiddleSegmentsDropped | utils/localStorage.js:20-26 | the stored name of `b.m.e` is `b_<time>.e`, so "a.tar.gz" keeps only ".gz" and the middle is lost |
| LocalStorage.GetFileCategory | utils/localStorage.js:63-69 | the result is always a File category; an image/ prefix gives image; "other" only when no pdf, document or text substring occurs |
| LocalStorage.MswordHasNoMediaPrefix | utils/localStorage.js:38 | the Word 97 type has none of the three media prefixes |
| LocalStorage.MswordHasNoDocumentWord | utils/localStorage.js:67 | the Word 97 type contains none of pdf, document, text |
| LocalStorage.MswordIsOther | utils/localStorage.js:67 | application/msword passes the filter but is classified other |
| LocalStorage.IsDocument | utils/localStorage.js:67 | a non-media type containing pdf, document or text is a document |
| LocalStorage.DocumentTypesAreDocuments | utils/localStorage.js:67 | the PDF, docx and plain-text types classify as documents |
| LocalStorage.MediaTypesByPrefix | utils/localStorage.js:64-66 | the four image types, mp4 and the two audio types classify by their prefix |
| LocalStorage.AllowedTypeCategory | utils/localStorage.js:32-44 | the category of every allowed type, by its place in the list |
| Auth.JwtSecret | middleware/auth.js:3 | the environment secret when it is set and non-empty, otherwise "your-secret-key" |
| Auth.Token | middleware/auth.js:8 | a token exists exactly when the header's second space-separated word is non-empty, and it is that word; no header or no space gives none |
| Auth.TokenIgnoresScheme | middleware/auth.js:8 | `<any word> <token>` yields the token: the scheme word is never compared |
| Auth.TokenIgnoresTrailingWords | middleware/auth.js:8 | `<scheme> <token> <more>` yields the token: words after the second are ignored |
| Auth.DoubleSpaceHasNoToken | middleware/auth.js:8-12 | two spaces after the scheme leave the second word empty, so no token |
| Auth.AuthenticateToken | middleware/auth.js:6-21 | 401 exactly without a token, 403 exactly when verification fails, otherwise the decoded payload is passed on |
| Auth.RequireAdmin | middleware/auth.js:24-29 | next exactly when the user's role is the string "admin"; a missing user throws |
| Auth.AdminRouteIff | middleware/auth.js:6-29 | an admin route reaches its handler exactly when the token verifies to a payload with role "admin" |
| Cors.AllowedOrigins | server.js:34-41 | the list holds exactly the five fixed origins plus FRONTEND_URL when it is set and non-empty, and no empty entry |
| Cors.OriginCallback | server.js:44-54 | allowed exactly when there is no origin or it is an exact entry of the list |
| Cors.OriginAllowedIff | server.js:34-54 | with the start-up list, a present origin is allowed exactly when it is a fixed origin or equals FRONTEND_URL |
| Cors.TrailingSlashRejected | server.js:48 | an allowed origin with a trailing slash is rejected, since matching is exact |
| Hex.DigitChar | controllers/paymentController.js:275 | digit values 0–15 map to the lowercase hex characters |
| Hex.DigitValue | controllers/paymentController.js:282-283 | a hex character maps to its value in 0–15 |
| Hex.DigitRoundTrip | controllers/paymentController.js:275 | a digit value and its character are inverse |
| Hex.Encode | controllers/paymentController.js:275 | `digest('hex')`: two lowercase hex characters per byte |
| Hex.Decode | controllers/paymentController.js:282-283 | `Buffer.from(s, 'hex')` on lowercase hex text: one byte per pair |
| Hex.DecodeEncode | controllers/paymentController.js:275-283 | decoding an encoded digest gives the digest back |
| Hex.EncodeDecode | controllers/paymentController.js:282-283 | encoding a decoded even-length lowercase hex string gives the string back |
| Hex.DecodeInjective | controllers/paymentController.js:282-283 | two even-length lowercase hex strings that decode to the same bytes are the same string |
| PaymentController.InitAllKeeps | controllers/paymentController.js:10-12 | once a client is cached, no later call replaces it, whatever the environment |
| PaymentController.InitAllFirstConfigured | controllers/paymentController.js:10-35 | from an empty cache, a client exists exactly when some call saw both keys set and a secret without "placeholder", and it is that first call's client |
| PaymentController.GatewayCache.Initialize | controllers/paymentController.js:9-36 | one call updates the module-level cache by the caching rule and returns the cached value |
| PaymentController.Round | controllers/paymentController.js:143 | `Math.round` gives the integer within half of its argument |
| PaymentController.NoSpaceOrAtCount | controllers/paymentController.js:91 | a part with no white space and no @ contains no @ |
| PaymentController.ValidEmailShape | controllers/paymentController.js:91-97 | an accepted email has exactly one @, no white space, and text before the @ |
| PaymentController.FirstInvalidCustomerField | controllers/paymentController.js:80-88 | the loop reports the first required field, in the order name, email, phone, that is missing or blank, and none exactly when all pass |
| PaymentController.CheckItems | controllers/paymentController.js:117-130 | items pass exactly when every item passes its checks |
| PaymentController.ScanItems | controllers/paymentController.js:117-130 | the early-return item loop gives the verdict of the first failing item |
| PaymentController.ItemsTotalPositive | controllers/paymentController.js:133 | a non-empty list of valid items has a positive total |
| PaymentController.Receipt | controllers/paymentController.js:145 | the receipt starts with "receipt_", is at most 40 characters, and carries the whole time stamp when it fits |
| PaymentController.BuildOptions | controllers/paymentController.js:142-153 | the amount sent is round(amount·100) paise; the receipt is at most 40 characters; the notes are prefixes of the name, email and phone, at most 50, 50 and 15 characters |
| PaymentController.BodyGate | controllers/paymentController.js:53-77 | passes exactly when amount, customerInfo and items are present, the amount is a number in (0, 500000] and the currency (INR by default) is INR or USD |
| PaymentController.CustomerGate | controllers/paymentController.js:80-106 | passes exactly when name, email and phone are non-blank strings, the email matches and the digits of the phone are 10 starting with 6–9 |
| PaymentController.CustomerFieldOrder | controllers/paymentController.js:80-88 | the field named in a rejection is the first to fail in the order name, email, phone |
| PaymentController.ItemsGate | controllers/paymentController.js:109-139 | passes exactly when items is a non-empty array of complete items with positive numeric price and quantity, and the total is within 0.01 of the amount |
| PaymentController.CreateGate | controllers/paymentController.js:53-139 | all validation gates in source order; passes exactly when the request satisfies all of them |
| PaymentController.CreateSucceedsIff | controllers/paymentController.js:45-173 | a gateway order is created exactly when the service is configured, every gate passes and the gateway call succeeds; the options sent are those built from the body |
| PaymentController.RequestAmounts | controllers/paymentController.js:64-143 | for a request that passes the amount, currency and item gates (as every created order's does), the amount is in (0, 500000], the paise sent are within half a paisa of amount·100, the items add up to the amount within 0.01, and the item count is positive |
| PaymentController.CheckCustomer | controllers/paymentController.js:80-106 | the loop-based customer checks decide as the customer gate does |
| PaymentController.CheckItemList | controllers/paymentController.js:109-139 | the loop-based item checks decide as the items gate does |
| PaymentController.CreatePaymentOrder | controllers/paymentController.js:39-183 | the handler updates the client cache by the caching rule and replies as the decision function says |
| PaymentController.CheckSignature | controllers/paymentController.js:271-292 | authentic exactly when the HMAC of orderId and paymentId joined by a vertical bar under the secret equals the decoded signature, whose hex text then is the signature; with no secret or a digest that is not 32 bytes, the comparison throws |
| PaymentController.Confirm | controllers/paymentController.js:297-321 | confirmed exactly when the fetch threw, or the payment is captured and its amount is within 0.01 of the request's |
| PaymentController.OrderIdFor | controllers/paymentController.js:324 | the order id starts with "ORD" and its length is 3 + the time stamp's digits + min(4, payment id length) |
| PaymentController.OrderIdDeterminesTime | controllers/paymentController.js:324 | for one payment id, different creation times give different order ids |
| PaymentController.OrderIdEndsWithPaymentTail | controllers/paymentController.js:324 | for a well-formed payment id, the order id ends with its last four characters upper-cased |
| PaymentController.Sanitized | controllers/paymentController.js:328-332 | a non-string value throws; a non-empty string is cut to its first n characters; otherwise the default; never empty when the default is not |
| PaymentController.SanitizedDigits | controllers/paymentController.js:330-333 | only digits, at most n, a prefix of the value's digits; all of them when they fit; a non-string value throws |
| PaymentController.NumberOf | controllers/paymentController.js:345-346 | `Number` on a JSON value: the empty array is 0, an array of two or more elements is NaN, a one-element array converts as its element |
| PaymentController.ProjectItem | controllers/paymentController.js:342-348 | the element fails exactly when the item is null, its `name` or `image` is present and not a string (so `?.substring` throws), or `Number` makes its price or quantity NaN; the name is "" when absent, else its first 200 characters; price and quantity are `Number` of the item's values |
| PaymentController.ProjectItems | controllers/paymentController.js:342-348 | the items project exactly when every item does, and then the i-th result is the i-th item's projection, one per item |
| PaymentController.NumericImageThrows | controllers/paymentController.js:347 | an item whose `image` is a number makes `substring` throw, so the projection fails |
| PaymentController.SanitizeCustomer | controllers/paymentController.js:327-334 | the name is non-empty and at most 100 characters ("Anonymous User" when absent); email and city are at most 100 and address at most 500; phone and pincode are digits only, at most 15 and 10 |
| PaymentController.OrderRecord | controllers/paymentController.js:337-361 | the saved document carries the new order id, the payment id, the amount as total, the projected items, the default status, no customer id and the sanitised customer fields |
| PaymentController.VerifyGates | controllers/paymentController.js:192-258 | the request-only gates in source order: configuration, id presence, the order, payment and signature formats, data presence, a positive amount; every reply is one decided before the collection is read |
| PaymentController.RecordOrder | controllers/paymentController.js:323-379 | after confirmation the reply is verified or failed; an item whose projection throws fails it, and a failure leaves the collection unchanged |
| PaymentController.VerifyWritesAtMostOnce | controllers/paymentController.js:186-389 | the collection is unchanged on every reply except success, which appends exactly one order: the one the reply names, with the built order id and the request's payment id, stored with status "pending" while the reply says "completed" |
| PaymentController.AfterGatesNotEarly | controllers/paymentController.js:210-258 | once the request gates pass, no later step produces one of their replies |
| PaymentController.EarlyGatesIgnoreStore | controllers/paymentController.js:192-258 | every gate before the duplicate lookup decides the same way whatever the collection holds |
| PaymentController.DuplicateBeforeSignature | controllers/paymentController.js:260-268 | a payment id already stored gives 409 with that order's id, whatever the signature, fetch or clock, and writes nothing |
| PaymentController.ReplayIsRefused | controllers/paymentController.js:260-268 | replaying a verified request against the collection it produced is refused with 409 |
| PaymentController.VerifiedIsAuthentic | controllers/paymentController.js:271-292 | a verified payment's signature is the hex HMAC of orderId and paymentId joined by a vertical bar under the configured secret, the gateway either threw or reported it captured for the amount within 0.01, and no stored order had its payment id |
| PaymentController.FetchErrorIsIgnored | controllers/paymentController.js:318-321 | a thrown fetch gives the same result as a fetch that confirmed the payment |
| PaymentController.VerifyPaymentRequest | controllers/paymentController.js:186-389 | the handler updates the gateway cache and replies, and writes the collection, as the decision function says |
| OrderController.ProjectLine | controllers/orderController.js:72-76 | a null item throws; otherwise the line keeps exactly name, quantity and price, cast to the schema types |
| OrderController.ProjectLines | controllers/orderController.js:72-76 | one line per input item, in input order, or a failure when one fails |
| OrderController.OptionalString | models/Order.js:7-11 | an optional String path: undefined or null is unset, a string is kept, and any other value fails the cast |
| OrderController.OrderDocument | controllers/orderController.js:64-82 | the document is a guest order (no customer id) with status "processing", the given order id, payment id, total and name, the projected items and now as payment date |
| OrderController.MissingFieldsIff | controllers/orderController.js:27-37 | 400 "Missing required fields" exactly when one of orderId, paymentId, total, items, customerName is falsy |
| OrderController.TestDataIff | controllers/orderController.js:41-61 | the test-data reply comes exactly when the fields are present and the lower-cased order id or payment id is on the blocklist |
| OrderController.MixedCaseIsBlocked | controllers/orderController.js:43-44 | "Test_Order" lower-cases to a blocked id |
| OrderController.CreateOrderWritesOnlyOnSuccess | controllers/orderController.js:28-91 | every refusal leaves the collection unchanged; success appends exactly the document the reply carries |
| OrderController.PaymentIdNotChecked | controllers/orderController.js:28-84 | an order with an already stored payment id is still saved: no lookup by payment id precedes the save |
| OrderController.GetOrderById | controllers/orderController.js:110-124 | 404 exactly when no order has the order id; otherwise a stored order with that id |
| OrderController.GetOrderByIdUnique | controllers/orderController.js:113 | under the unique index, the lookup returns the one order with that id |
| OrderController.GetOrderByPaymentId | controllers/orderController.js:127-142 | 404 exactly when no order has the payment id; otherwise the first stored order with it |
| OrderController.GetAllOrders | controllers/orderController.js:99-107 | every order, each once, newest first |
| OrderController.UpdateOrderStatus | controllers/orderController.js:147-172 | an id that does not cast, or a status that is neither a string nor null, fails; with a valid update an unknown id gives 404; a success changes only the one order with that id: a string status is stored as given, null unsets it, no status leaves the order as it was; every failure writes nothing |
| OrderController.StatusChangeOf | controllers/orderController.js:149-155 | the `{ status }` update: an absent status writes nothing, null unsets it, a string sets it, any other value fails the String cast |
| OrderController.StatusOutsideEnumIsStored | controllers/orderController.js:152-156 | a status outside the enum is accepted and stored, leaving an order that fails validation |
| OrderController.NullStatusIsStored | controllers/orderController.js:149-155 | `{"status": null}` is accepted and unsets the status, leaving an order that fails validation |
| DashboardController.DashboardStats | controllers/dashboardController.js:6-27 | totalOrders is the number of orders, pendingOrders the number with status "pending", totalCustomers the number of users with role customer, totalRevenue the sum of the order totals (0 without orders), totalProducts the product count |
| DashboardController.NewOrderStats | controllers/dashboardController.js:6-27 | a new order adds one to totalOrders and its total to the revenue, one to pendingOrders exactly when it is pending, and leaves customers and products unchanged |
| DashboardController.RevenueAppend | controllers/dashboardController.js:10-13 | the revenue is the sum of the totals: a new order adds its own total |
| DashboardController.RevenueNonNegative | controllers/dashboardController.js:10-13 | with non-negative totals the revenue is non-negative |
| DashboardController.CustomersAndAdmins | controllers/dashboardController.js:8 | customers and admins together are all users, so admins are never counted as customers |
| DashboardController.GetCustomers | controllers/dashboardController.js:30-40 | one entry per customer, newest first |
| DashboardController.GetCustomersSelectsCustomers | controllers/dashboardController.js:32-34 | the listing holds exactly the selected-field views of the customers, and every customer is listed |
| DashboardController.GetDashboardOrders | controllers/dashboardController.js:43-52 | every order, each once, newest first |
| DashboardController.UpdateOrderStatus | controllers/dashboardController.js:55-77 | a success changes only the status of the order with that id: a string status is stored as given, null unsets it; every failure writes nothing |
| FileController.CastBoolean | controllers/fileController.js:29 | the Boolean cast keeps booleans, turns "true" to true and "false" to false, and accepts only booleans, strings and numbers |
| FileController.ParseTags | controllers/fileController.js:30 | one tag per comma-separated piece, each no longer than the input |
| FileController.TagsAreTrimmed | controllers/fileController.js:30 | every tag is trimmed, and a string without a comma gives one trimmed tag |
| FileController.UploadTags | controllers/fileController.js:30 | a falsy value gives no tags, a string is split and trimmed, any other truthy value throws |
| FileController.EmptyTagsDiffer | controllers/fileController.js:314 | an empty tags string is no tag on upload but one empty tag on update |
| FileController.UploadDescription | controllers/fileController.js:28 | a falsy description gives "", a string is kept, any other value fails the cast |
| FileController.AuthenticatedFields | controllers/fileController.js:12-30 | the shared fields of the authenticated uploads: no request category, public when `isPublic` is undefined |
| FileController.PublicFields | controllers/fileController.js:111-129 | the shared fields of the public upload: always public, the request category exactly when it is truthy |
| FileController.SaveOne | controllers/fileController.js:16-32 | a saved record is the draft of this file and cloud result, filed under the request or MIME category, valid, and with a fresh id; a thrown upload or a failed validation saves nothing |
| FileController.UploadAll | controllers/fileController.js:62-88 | the loop appends exactly the records it saved, at most one per file, and all of them exactly when no file failed |
| FileController.UploadAllKeepsIdsUnique | controllers/fileController.js:62-88 | the upload loop keeps `_id` unique |
| FileController.UploadAllAt | controllers/fileController.js:62-88 | the k-th record saved is the record of the k-th file of the request |
| FileController.CategoryAt | controllers/fileController.js:126 | the k-th record is filed under the category of the k-th file |
| FileController.UploadAllInOrder | controllers/fileController.js:62-93 | the whole loop gives one record per file in input order |
| FileController.UploadFile | controllers/fileController.js:7-51 | 400 exactly without a file; every failure writes nothing; success appends the one record of that file |
| FileController.UploadMany | controllers/fileController.js:54-103 | 400 exactly without files; success appends one record per file, in order; any outcome appends at most one record per file |
| FileController.UploadMultipleFiles | controllers/fileController.js:54-103 | success appends one record per file, in order, each uploaded by the requester |
| FileController.UploadMultipleFilesPublic | controllers/fileController.js:106-151 | success appends one record per file, in order, each public and with no uploader |
| FileController.PublicUploadCategory | controllers/fileController.js:126 | a public upload uses the request's category when it is given, otherwise the one derived from the MIME type |
| FileController.Populated | controllers/fileController.js:212 | the uploader's id when that user still exists, otherwise null |
| FileController.GetFile | controllers/fileController.js:209-241 | 404 exactly for an unknown id; a file shown is public or belongs to the requester; a denial is a private file |
| FileController.GetFileAccessIff | controllers/fileController.js:222 | a stored file is shown exactly when it is public or its uploader still exists and is the requester; a private file whose uploader is gone throws |
| FileController.DownloadFile | controllers/fileController.js:244-288 | 404 exactly for an unknown id; every refusal writes nothing; a download raises that file's count to (old or 0) + 1 and changes nothing else |
| FileController.DownloadRouteServesOnlyPublic | routes/fileRoutes.js:23 | without authentication on the download route, a stored file is downloaded exactly when it is public |
| FileController.UpdateFields | controllers/fileController.js:313-315 | only description, tags and isPublic can change, each exactly when it is defined in the body |
| FileController.UpdateFile | controllers/fileController.js:291-333 | 404 exactly for an unknown id; every refusal writes nothing; an update is by the uploader and replaces only that file with its updated fields and save time |
| FileController.UpdateAllowedIff | controllers/fileController.js:305 | an update of a stored file goes through exactly when the requester uploaded it and the fields cast; a file without an uploader throws |
| FileController.DeleteFile | controllers/fileController.js:336-378 | 404 exactly for an unknown id; every refusal writes nothing; a deletion removes exactly that record |
| FileController.DeleteAllowedIff | controllers/fileController.js:349 | a stored file is deleted exactly when it has an uploader and the requester is that uploader or an admin; afterwards no record has its id and every other record is kept |
| FileController.PublicUploadsAreFixed | controllers/fileController.js:125 | a publicly uploaded file can be neither updated nor deleted, by anyone |
| FileController.GetFileStats | controllers/fileController.js:381-440 | totalFiles counts every file, publicFiles and privateFiles the public and the private ones; totalSize and totalDownloads are the sums of the sizes and download counts; one group per category that occurs, holding its count, size sum and download sum |
| FileController.CategoryCountsAddUp | controllers/fileController.js:399-408 | the category groups partition the collection |
| FileController.CategoryTotalsAddUp | controllers/fileController.js:399-408 | the per-category sums of any field add up to that field's sum over the collection |
| FileController.StatsCategoriesAddUp | controllers/fileController.js:381-440 | the groups' size and download sums add up to totalSize and totalDownloads |
| FileController.DownloadAddsOne | controllers/fileController.js:274 | a granted download adds exactly one to totalDownloads and leaves the other totals unchanged |
| FileController.UploadAddsSizes | controllers/fileController.js:54-103 | a successful multi-upload adds its files to the count and their sizes to totalSize |
| FileController.GetAllFiles | controllers/fileController.js:154-169 | every file, each once, newest first |
| FileController.GetPublicFiles | controllers/fileController.js:172-187 | exactly the public files, newest first |
| FileController.GetUserFiles | controllers/fileController.js:190-206 | exactly the requester's files, newest first |
| FileController.FileCollection.Download | controllers/fileController.js:244-288 | the in-place counter increment and save leave the collection as the download function says |
| FileController.FileCollection.Update | controllers/fileController.js:291-333 | the guarded in-place assignments and the save leave the collection as the update function says |
| FileController.FileCollection.Delete | controllers/fileController.js:336-378 | the access check and removal leave the collection as the delete function says |
| FileController.FileCollection.SaveEach | controllers/fileController.js:62-88 | the push loop saves records as the upload loop function says |
| FileController.FileCollection.Upload | controllers/fileController.js:7-51 | the single upload leaves the collection as the upload function says |
| FileController.FileCollection.UploadMultiple | controllers/fileController.js:54-103 | the multi-upload loop leaves the collection as the function says |
| FileController.FileCollection.UploadMultiplePublic | controllers/fileController.js:106-151 | the public multi-upload loop leaves the collection as the function says |
| ProductRoutes.Flag | routes/productRoutes.js:24-30 | a flag filter exists exactly when the parameter is defined, and is true exactly when it equals "true" |
| ProductRoutes.BuildPublicQuery | routes/productRoutes.js:18-30 | the assignments give the public query: always isActive true, the lower-cased category when given, the flag filters |
| ProductRoutes.BuildAdminQuery | routes/productRoutes.js:618-626 | the assignments give the admin query: no isActive filter, and no category filter for an absent category or "all" |
| ProductRoutes.Matching | routes/productRoutes.js:32-38 | exactly the matching products, each once, newest first; their number is the count |
| ProductRoutes.Window | routes/productRoutes.js:35-36 | skip then limit: the length is the part of the list left after skipping, capped by limit, and the elements are the list's from the skip on |
| ProductRoutes.Ceil | routes/productRoutes.js:45 | `Math.ceil`: the least integer at least its argument |
| ProductRoutes.Listing | routes/productRoutes.js:32-56 | throws exactly for a negative skip; total counts the matches; the page is the window at (page−1)·limit of the matches, newest first; pages is ⌈total/limit⌉, or null for limit 0 |
| ProductRoutes.GetProducts | routes/productRoutes.js:14-57 | every product listed is active; without page and limit the listing succeeds with at most 50 products |
| ProductRoutes.GetByCategory | routes/productRoutes.js:60-107 | every product listed is active and in the lower-cased path category; without page and limit the listing succeeds with at most 10 products |
| ProductRoutes.GetAdminProducts | routes/productRoutes.js:614-653 | a category other than "all" keeps only products of its lower-cased form; without page and limit the listing succeeds with at most 10 products |
| ProductRoutes.PublicFlagsFilter | routes/productRoutes.js:18-30 | every product a public listing shows is active, matches the search, and its featured and inStock flags equal (parameter == "true") when those parameters are defined |
| ProductRoutes.PublicTotalCountsActive | routes/productRoutes.js:18 | without filters, the public total is the number of active products |
| ProductRoutes.AdminTotalCountsAll | routes/productRoutes.js:618-622 | without search and with no category or "all", the admin total counts every product, inactive ones included |
| ProductRoutes.CategoryIgnoresCase | routes/productRoutes.js:66 | the category listing is the same for a category and its lower-cased form |
| ProductRoutes.PageIsNonEmptyIff | routes/productRoutes.js:35-45 | with a positive limit and page ≥ 1, a page has products exactly when page ≤ pages, and every page before the last is full |
| ProductRoutes.GetSingle | routes/productRoutes.js:160-184 | 404 exactly for an unknown id; otherwise the product with that id, whether active or not |
| ProductRoutes.ProductIndex | routes/productRoutes.js:162 | with unique ids, looking up a stored product's id finds that product |
| ProductRoutes.DeleteProduct | routes/productRoutes.js:555-580 | 404 exactly for an unknown id; a deletion removes exactly the product at that id's position |
| ProductRoutes.DeleteRemovesOnly | routes/productRoutes.js:566 | after deletion the id is gone and every other product is kept |
| ProductRoutes.Urls | routes/productRoutes.js:231-244 | the URLs exist exactly when every upload succeeded, one per upload in upload order |
| ProductRoutes.CollectUrls | routes/productRoutes.js:231-244 | the push loop gives the URLs function's result, stopping at the first thrown upload |
| ProductRoutes.MergedImages | routes/productRoutes.js:508-513 | the existing images followed by the new ones in upload order |
| ProductRoutes.BuildDraft | routes/productRoutes.js:281-321 | the in-place construction gives the draft function's value, which is missing exactly when category is absent |
| ProductRoutes.CreateWith | routes/productRoutes.js:281-342 | a missing category or user id throws; success appends exactly one valid, active, unfeatured product with a fresh id, the requester as creator, the trimmed name, the lower-cased category and the given images |
| ProductRoutes.CreatedDefaults | routes/productRoutes.js:247-296 | the defaults: subcategory "", discount 0, stock 0, no tags, no specifications and no colour variants when those fields are absent or do not parse; colour variants are always `{}` on `/create` |
| ProductRoutes.CategoryFieldsSet | routes/productRoutes.js:298-321 | each category-specific field is assigned only for its own category and otherwise left as it was |
| ProductRoutes.CategoryFieldsOnlyForCategory | routes/productRoutes.js:298-321 | news fields only for "news", with the date defaulting to now; printing options only for "printing"; business info only for "localmarket"; otherwise the schema defaults |
| ProductRoutes.CreateAtBase | routes/productRoutes.js:187-343 | a thrown upload writes nothing and gives 500; the image is the uploaded one or the placeholder; the images are the additional uploads in order |
| ProductRoutes.CreateSingle | routes/productRoutes.js:346-461 | one optional image (or the placeholder), no additional images, colour variants always `{}` |
| ProductRoutes.CreationNeedsUserId | routes/productRoutes.js:295 | a payload without `userId` never creates a product and writes nothing |
| ProductRoutes.CreateKeepsIdsUnique | routes/productRoutes.js:325-327 | creation keeps the ids unique |
| ProductRoutes.SetJsonFields | routes/productRoutes.js:516-535 | a parse that throws gives no product; only the five fields change, and each field absent from the body keeps its value |
| ProductRoutes.FieldUpdate | routes/productRoutes.js:516-530 | the `x && typeof x === 'string'` guard: an absent field is not written, "" is written unparsed as the empty string, a non-empty string is parsed, and only a failed parse throws |
| ProductRoutes.DecodeFields | routes/productRoutes.js:516-530 | the five parses fail exactly when one of them throws; otherwise each field's write is the guarded parse of that field |
| ProductRoutes.TagsWrite | models/Product.js:52-55 | an unwritten tags field keeps the tags; the empty string becomes one empty tag |
| ProductRoutes.CastFields | routes/productRoutes.js:532-535 | casting the decoded writes changes only the five fields: tags by the tags cast, colour variants to the value written, each unwritten field kept; under the model's cast rule an empty string written to specifications, printing options or business info fails |
| ProductRoutes.EmptyTagsDecoded | routes/productRoutes.js:516-518 | an empty tags field reaches the update unparsed, as the empty string |
| ProductRoutes.EmptyTagsWritten | routes/productRoutes.js:516-535 | an empty tags field stores one empty tag |
| ProductRoutes.ColorVariantsWritten | routes/productRoutes.js:522-524 | an empty colour variants field stores the empty string; a non-empty one stores its parse |
| ProductRoutes.EmptyObjectFieldsRefused | routes/productRoutes.js:519-530 | under the model's cast rule, an empty specifications, printing options or business info field makes the update fail |
| ProductRoutes.UpdatedProduct | routes/productRoutes.js:475-535 | a parse that throws, or an empty image written, gives no product; the image is the upload's URL, else the body's `image`, else the old one; the images are the old ones followed by the new URLs when some were uploaded, else the body's `images`, else the old ones; the time is set and the updater is kept or written as the update says; no field outside these and the five JSON fields changes |
| ProductRoutes.UpdateWritesEmptyFields | routes/productRoutes.js:475-535 | copied from the body, an empty tags field stores one empty tag, an empty colour variants field the empty string, and an empty object field, which the model's cast rule refuses, makes the update fail |
| ProductRoutes.UpdateProduct | routes/productRoutes.js:464-552 | 404 exactly for an unknown id; malformed JSON throws; every failure writes nothing; a success replaces only that product: the image is the upload's, the body's or the old one, the images old followed by new, the body's, or the old ones, the time set, `updatedBy` kept when the payload has no `userId`, unset for null and set to a string `userId`, every field outside the five JSON fields kept; a `userId` that is neither a string nor null throws |
| ProductRoutes.UpdaterWriteOf | routes/productRoutes.js:476 | `updatedBy = req.user.userId` as an update key: absent keeps the stored updater (the undefined key is dropped), null unsets it, a string sets it, any other value fails the cast |
| ProductRoutes.UpdateWithoutUserIdKeepsUpdater | routes/productRoutes.js:476-537 | an admin token without `userId` updates the product and keeps its stored `updatedBy` |
| ProductRoutes.ToggleProductStatus | routes/productRoutes.js:583-611 | 404 exactly for an unknown id; a success negates isActive, sets updater and time, and changes nothing else |
| ProductRoutes.ToggleTwiceRestores | routes/productRoutes.js:594 | two toggles restore isActive, and the product then differs only in updater and time |
| ProductRoutes.ProductCatalog.Save | routes/productRoutes.js:325-327 | the in-place save leaves the catalogue as the creation function says |
| ProductRoutes.ProductCatalog.Create | routes/productRoutes.js:187-343 | `POST /` leaves the catalogue as the base-route function says |
| ProductRoutes.ProductCatalog.CreateWithImage | routes/productRoutes.js:346-461 | `POST /create` leaves the catalogue as the single-image function says |
| ProductRoutes.ProductCatalog.Update | routes/productRoutes.js:464-552 | the update leaves the catalogue as the update function says |
| ProductRoutes.ProductCatalog.Toggle | routes/productRoutes.js:583-611 | flipping `isActive` in place and saving leaves the catalogue as the toggle function says |
| ProductRoutes.ProductCatalog.Delete | routes/productRoutes.js:555-580 | the deletion leaves the catalogue as the delete function says |

## Left out

- HMAC-SHA256 and `crypto.timingSafeEqual` are foreign crypto. The HMAC is a function
  parameter and the comparison is byte equality on equal lengths; timing behaviour cannot be
  expressed.
- The Razorpay SDK (`orders.create`, `payments.fetch`) is a network client. Its replies are
  parameters, and the order it creates is opaque. `getPaymentStatus` (controllers/paymentController.js:392-431)
  only relays a fetch, so it is not part of this model.
- JWT verification (RFC 7519) is a foreign library; it is a parameter returning the payload
  or nothing.
- Cloudinary uploads and destroys, multer parsing and storage, `fs` (`deleteLocalFile`, the
  uploads directory) and `populate` projections are I/O. Cloud results are parameters; a
  cloud destroy error is caught by the source and so is no input; `maxCount` limits and
  unexpected-field errors are not modelled.
- An upload that succeeded before a later failure is left orphaned in the cloud; the model
  records only the collection.
- Requests run one at a time. The read-then-write race between the duplicate lookup and the
  save in `verifyPayment` cannot be expressed, and paymentId carries no unique index.
- Amounts are exact `real`s, not IEEE doubles; the 0.01 tolerances compare exactly.
  `Math.round` is exact rounding on reals.
- `Date.now()` and `new Date()` are a `now` parameter. A multi-file upload uses one
  request time for all files.
- Mongoose casting between types is not modelled beyond what each handler needs: a value
  not already of the schema type is a cast failure and numbers are not cast to strings; of
  the array casts only a lone string becoming a one-tag array is modelled. An ObjectId path parameter is `Option`, `None` when
  it does not cast.
- OrderController.OptionalString: a new order's optional String path given as null is stored
  as unset; the model does not tell a stored null from an absent path there (the status update
  does tell them apart, `OrderController.StatusChangeOf`).
- FileController.UpdateFields: `{"description": null}` or `{"isPublic": null}` is stored as
  null by the source and answered 200, since both paths are optional; the file record holds
  a plain string and boolean, so the model answers these with a failed update (500).
- PaymentController.Sanitized, PaymentController.SanitizeCustomer, PaymentController.ProjectItem,
  PaymentController.BuildOptions and PaymentController.OrderIdFor: a Dafny `string` is a
  sequence of Unicode scalar values, while `.length`, `substring`, `slice` and `toUpperCase`
  work on UTF-16 code units. For text with characters outside the Basic Multilingual Plane
  (an emoji, say) the model counts each as one character where JavaScript counts two, so its
  cuts can keep more characters than the source and never split a surrogate pair.
- `findByIdAndUpdate` drops keys whose value is undefined, as current Mongoose versions do
  (the order status and the product `updatedBy` are kept then); older versions with
  `omitUndefined` off sent such keys as null, which is not modelled. An assignment of undefined
  on a loaded document followed by `save` unsets the path (the product toggle).
- Regex tests and string methods apply JavaScript coercion to non-strings; the model rejects
  every non-string where the source would coerce it.
- ProductRoutes.Listing: page and limit are integers (`limit * 1` on text that is not
  numeric is not modelled), non-integer pages are not modelled, and the order of products
  with equal creation times is not fixed.
- ProductRoutes.UpdateProduct: of the form fields the route copies into the update, only
  `image`, `images` and the five JSON fields are modelled (with `updatedBy` and `updatedAt`);
  name, price and the other body fields are not written, and the update validators run only
  on the image path.
- Product form bodies and query strings are string maps, so JSON bodies, repeated form
  fields and repeated query parameters (which Express gives as an array, so that
  `?featured=true&featured=true` filters on false and an array `search` makes `$text` throw)
  are not modelled: ProductRoutes.Flag, ProductRoutes.BuildPublicQuery and
  ProductRoutes.BuildAdminQuery take one string per parameter.
- Case mapping (`toLowerCase`, `toUpperCase`) is ASCII only; white space (`trim`, `\s`) is the
  full JavaScript set.
- Express routing tables, app setup, Mongo connection, logging and `requestLogger` are
  framework plumbing; only the route order that matters for the download rule is used.
- Seeding and one-off scripts (utils/initializeData.js, create-admin.js, check-admin.js,
  check-products.js, login-admin.js, test-color-variants-simple.js) do I/O only and are not
  part of this model.
- FileController handlers take `req.user` as a principal whose id and role are always
  present strings.
- ProductRoutes.CreateWith, ProductRoutes.UserIdOf, ProductRoutes.UpdaterOf,
  ProductRoutes.UpdaterWriteOf, ProductRoutes.UpdateProduct, ProductRoutes.ToggleProductStatus,
  FileController.SaveOne and FileController.GetUserFiles: a user id from the token is assumed
  to be an `ObjectId` string. The `createdBy`, `updatedBy` and `uploadedBy` paths and the
  `uploadedBy` filter cast it, so a signed payload with an id such as "abc" makes the source
  answer 500, while the model stores or filters on the string.
- ProductRoutes.CastFields, ProductRoutes.EmptyObjectFieldsRefused and
  ProductRoutes.UpdateWritesEmptyFields: an empty string written to `specifications`,
  `printingOptions` or `businessInfo` fails under the model's cast rule. Mongoose likely stores
  an empty map for the `Map` path and passes the string through on the two nested paths,
  which have no schema type of their own, replying 200; that is not modelled.
