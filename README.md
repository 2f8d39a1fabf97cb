# BioVibe Peptides admin and mail core, in Dafny

This project models three parts of the BioVibe Peptides web shop and proves properties about them:

- **The product admin page** (`src/app/admin/products/page.js`). This is the component's state machine:
  - the five state variables `products`, `loading`, `showForm`, `editingProduct` and `formData`;
  - the handlers Add Product, `handleEdit`, `resetForm`, the form inputs, `handleSubmit`, `handleDelete` and `fetchProducts`;
  - the form-to-payload coercion and the product-to-form mapping.

  It is written as a class, `ProductsPage.ProductsController`, with those fields. Each method is proved against a pure transition function (`AfterEdit`, `AfterSubmit`, …) that states the outcome. Network replies and the answer to the confirmation dialog are method parameters. The requests sent and the alert shown are results.
- **The order e-mails** (`src/lib/email.js`). The model covers what `sendOrderConfirmation` and `sendInvoiceWithPDF` put into `mailOptions`:
  - sender, recipient and subject;
  - the order number;
  - the address lines;
  - the processing fee and shipping cost;
  - the sections of the body, in document order, with the values each one shows;
  - the PDF attachment.
- **The site-content singleton** (`src/models/SiteContent.js`):
  - the schema's declared defaults, including the feature and service sub-documents;
  - casting `create`'s input against them;
  - `getContent`, a get-or-create over a stored sequence of documents, written both as a function `GetOrCreate` and as a method of the class `SiteContent.ContentStore`.

Module `Js` states the JavaScript built-ins these rely on, for the inputs they meet here:

- truthiness and `||` fallbacks;
- `filter(Boolean)` and `join`;
- `slice(-8)` and ASCII `toUpperCase`;
- `parseInt` and `parseFloat` (ECMA-262, sections 19.2.5 and 19.2.4) on an optional sign, decimal digits and, for `parseFloat`, an optional fraction;
- `toString` of integers and of amounts in cents.

Product amounts are whole cents. Mail amounts are exact reals.

A delete the server refuses (`success` false) shows no alert and changes nothing; only a thrown error alerts "Failed to delete product" (`page.js:87-95`).

A submit whose `required` inputs are empty is stopped by the browser before `handleSubmit` runs (`page.js:152,164,177`). Its step therefore sends nothing and changes nothing.

## Model

| member | source | states |
|---|---|---|
| Js.OrElse | src/lib/email.js:61 | `s \|\| fallback`: the string when present and non-empty, the fallback otherwise |
| Js.Compact | src/lib/email.js:21-25 | `filter(Boolean)`: no empty element, nothing not in the input, and empty exactly when no element is truthy |
| Js.CompactAppend | src/lib/email.js:21-25 | filtering a concatenation is the concatenation of the filtered parts (order is kept) |
| Js.Kept | src/lib/email.js:24 | what `filter(Boolean)` keeps of one element: the element's string when truthy, nothing otherwise |
| Js.CompactThree | src/lib/email.js:21-25 | filtering a three-element list keeps, in order, exactly the truthy ones of the three |
| Js.Join | src/lib/email.js:24 | joining nothing gives "", one element gives itself, and any non-empty element makes the result non-empty |
| Js.JoinAppend | src/lib/email.js:24 | appending an element to a non-empty list appends the separator and the element to the joined text; appended to nothing it is the whole text |
| Js.SliceLast | src/lib/email.js:33 | `slice(-n)` for n > 0: the last n characters, or the whole string when shorter |
| Js.Upper | src/lib/email.js:33 | `toUpperCase`: same length, every character mapped, ASCII letters to capitals |
| Js.ParseInt | src/app/admin/products/page.js:55-56 | NaN exactly when no digit follows the optional sign; the sign of the value follows the sign written |
| Js.ParseFloat | src/app/admin/products/page.js:53-54 | NaN exactly when there is no digit before or right after the point; unsigned input gives a non-negative value and negative input a non-positive one |
| Js.IntOr | src/app/admin/products/page.js:55-56 | `n \|\| d`: NaN and 0 give the fallback, any other value is kept |
| Js.RealOr | src/app/admin/products/page.js:54 | `x \|\| d` for a decimal: NaN and 0 give the fallback, any other value is kept |
| Js.NatToString | src/app/admin/products/page.js:78-79 | the decimal digits printed for n read back as n |
| Js.NatToStringNoLeadingZero | src/app/admin/products/page.js:78-79 | a printed natural number has no leading zero unless it is the single digit "0" |
| Js.IntToStringSign | src/app/admin/products/page.js:78-79 | `IntToString`, an integer's `toString`, is never empty and starts with "-" exactly when the integer is negative |
| Js.CentsToStringSign | src/app/admin/products/page.js:76-77 | `CentsToString`, the `toString` of an amount in cents, is never empty and starts with "-" exactly when the amount is negative |
| Js.ParseIntRoundTrip | src/app/admin/products/page.js:78-79 | `parseInt(n.toString())` is n for every integer |
| Js.ParseFloatCentsRoundTrip | src/app/admin/products/page.js:76-77 | `parseFloat` of an amount's `toString` is the amount, for every whole number of cents |
| Js.ParseFloatOfCentsOr | src/app/admin/products/page.js:77 | the same round trip for `(x \|\| 0).toString()`: the optional amount with its fallback of zero |
| ProductsPage.ToPayload | src/app/admin/products/page.js:50-56 | name and sub pass through; price is the parsed value; cost 0 and stock 0 when unparsable; threshold 5 when unparsable or 0, so it is never 0 |
| ProductsPage.FormFor | src/app/admin/products/page.js:73-80 | name and sub are copied; a missing or zero cost or stock shows "0", a missing or zero threshold shows "5" |
| ProductsPage.FormForReadsBack | src/app/admin/products/page.js:73-80 | each number the edit form shows parses back to the product's value, with its fallback applied |
| ProductsPage.EditThenSavePayload | src/app/admin/products/page.js:50-80 | editing a product and saving it unchanged sends back its own values |
| ProductsPage.BlankFormNotFilled | src/app/admin/products/page.js:10-17 | the blank form (empty name and price, sub "Lyophilized") cannot be submitted as it opens |
| ProductsPage.EditFormFilled | src/app/admin/products/page.js:71-80 | the edit form of a product with a name and a type can be submitted as it opens, since the printed price is never empty |
| ProductsPage.RequiredFilledAfterTyping | src/app/admin/products/page.js:146-178 | typing into cost, stock or threshold never changes whether the form can be submitted; typing into name, sub or price makes it depend on the typed text and the other two required inputs |
| ProductsPage.ErrorText | src/app/admin/products/page.js:64 | the text after "Error: " is the server's `error` when the reply has one, and "undefined" otherwise |
| ProductsPage.SaveRequest | src/app/admin/products/page.js:41-44 | PATCH to `/api/products/<id>` exactly when editing, POST to `/api/products` exactly when not; the body is the coerced payload |
| ProductsPage.WithoutId | src/app/admin/products/page.js:91 | the kept products are exactly those whose id differs |
| ProductsPage.WithoutIdAppend | src/app/admin/products/page.js:91 | the filter keeps the order of the products it keeps |
| ProductsPage.WithoutAbsentId | src/app/admin/products/page.js:91 | a list without the id is returned unchanged |
| ProductsPage.WithoutIdIdempotent | src/app/admin/products/page.js:91 | filtering twice equals filtering once |
| ProductsPage.DeleteKeepsOthers | src/app/admin/products/page.js:90-91 | deleting the product with the id leaves all the others, in order |
| ProductsPage.MountedSettled | src/app/admin/products/page.js:6-17 | the initial state has no products, is loading, and has a closed blank form |
| ProductsPage.AfterOpenAdd | src/app/admin/products/page.js:112-116 | Add Product shows the form, edits nothing and resets it to the blank defaults; products and loading unchanged |
| ProductsPage.AfterReset | src/app/admin/products/page.js:98-102 | `resetForm` closes the form, edits nothing and restores the blank defaults; products and loading unchanged |
| ProductsPage.ResetIdempotent | src/app/admin/products/page.js:98-102 | resetting twice equals resetting once |
| ProductsPage.OpenAddIsShownReset | src/app/admin/products/page.js:98-116 | Add Product is a reset with the form shown |
| ProductsPage.AfterEdit | src/app/admin/products/page.js:71-82 | `handleEdit` shows the form, records the product and fills in its form; products and loading unchanged |
| ProductsPage.WithField | src/app/admin/products/page.js:151-213 | `{ ...formData, [field]: value }`: the typed input shows the value and every other input keeps its text |
| ProductsPage.AfterInput | src/app/admin/products/page.js:151-213 | an input's change replaces that one form field and nothing else |
| ProductsPage.AfterFetch | src/app/admin/products/page.js:23-26 | requesting the list only sets loading |
| ProductsPage.AfterList | src/app/admin/products/page.js:26-35 | the list is replaced only on success and kept otherwise; loading is false after every outcome; the form is untouched |
| ProductsPage.AfterSubmit | src/app/admin/products/page.js:38-69 | the save request is sent first, and an edit never sends a POST. Success resets the form and refetches. A refusal alerts "Error: " and the server's error, and a thrown error alerts "Failed to save product"; both leave the state unchanged. Products never change, and a closed form stays blank |
| ProductsPage.AfterDelete | src/app/admin/products/page.js:84-96 | declining changes and sends nothing. Confirming sends DELETE to the product's URL. Success removes that id; a refusal changes nothing; a thrown error alerts. Only the products may change |
| ProductsPage.SettledPreserved | src/app/admin/products/page.js:23-116 | every handler keeps a closed form blank and free of an edited product |
| ProductsPage.ProductsController.constructor | src/app/admin/products/page.js:6-17 | the fields start at the `useState` initial values |
| ProductsPage.ProductsController.OpenAdd | src/app/admin/products/page.js:112-116 | the new state is `AfterOpenAdd` of the old |
| ProductsPage.ProductsController.ResetForm | src/app/admin/products/page.js:98-102 | the new state is `AfterReset` of the old |
| ProductsPage.ProductsController.Edit | src/app/admin/products/page.js:71-82 | the new state is `AfterEdit` of the old |
| ProductsPage.ProductsController.Input | src/app/admin/products/page.js:151-213 | the new state is `AfterInput` of the old |
| ProductsPage.ProductsController.FetchProducts | src/app/admin/products/page.js:23-26 | sets loading and returns the list request |
| ProductsPage.ProductsController.ReceiveProducts | src/app/admin/products/page.js:26-35 | the new state is `AfterList` of the old |
| ProductsPage.ProductsController.Submit | src/app/admin/products/page.js:38-69 | new state, requests and alert are those of `AfterSubmit` |
| ProductsPage.ProductsController.Delete | src/app/admin/products/page.js:84-96 | new state, requests and alert are those of `AfterDelete` |
| OrderEmail.OrderNumber | src/lib/email.js:33 | the upper-cased last 8 characters of the id (all of it when shorter); PENDING when the id is absent or empty |
| OrderEmail.OrderNumberShape | src/lib/email.js:145 | the order number is never empty and has at most 8 characters |
| OrderEmail.CityLine | src/lib/email.js:24 | the city/state/zip line is empty exactly when all three are absent or empty |
| OrderEmail.CityLineText | src/lib/email.js:24 | the city line is the truthy ones of city, state and zip, in that order, joined by ", " |
| OrderEmail.CityLineAllParts | src/lib/email.js:24 | with all three present the line is "city, state, zip" |
| OrderEmail.CityLineWithoutState | src/lib/email.js:24 | a missing state is dropped together with its separator: "city, zip" |
| OrderEmail.AddressLines | src/lib/email.js:20-25 | at most three lines, none empty, and some line exactly when some address component is set; a missing address counts as empty |
| OrderEmail.AddressLinesOrder | src/lib/email.js:20-25 | the lines are street, street2 and the city line, in that order, each present only when non-empty |
| OrderEmail.Fee | src/lib/email.js:27 | the order's fee when present and non-zero, otherwise 5% of the subtotal |
| OrderEmail.ShippingCost | src/lib/email.js:28 | the order's shipping cost, or 0 when missing |
| OrderEmail.CustomerName | src/lib/email.js:53 | the Name row: title, a space, first name, a space and last name when there is a title; first and last name otherwise |
| OrderEmail.ShippingLabel | src/lib/email.js:101 | "Shipping (option)" when an option is given, "Shipping" otherwise |
| OrderEmail.ItemRows | src/lib/email.js:12-18 | one row per item, in order, with that item's name, quantity and price |
| OrderEmail.AddressPart | src/lib/email.js:63-68 | the conditional address part holds only Shipping rows |
| OrderEmail.ShippingPart | src/lib/email.js:99-104 | the conditional shipping part holds only shipping-charge rows |
| OrderEmail.NotesPart | src/lib/email.js:114-119 | the conditional notes part holds only a notes box |
| OrderEmail.FromLineShape | src/lib/email.js:31 | `FromLine`, the sender line, is the quoted sender name "BioVibe Peptides", a space, and the mail account in angle brackets |
| OrderEmail.Confirmation | src/lib/email.js:30-33 | sent from the BioVibe Peptides account to the order's e-mail, with subject `Order Invoice #<number> - BioVibe Peptides`, and no attachment |
| OrderEmail.FixedPartsHoldNoVariableSection | src/lib/email.js:35-136 | the fixed header and footer parts hold none of the conditional sections |
| OrderEmail.ChargesHoldTheItems | src/lib/email.js:84-108 | the order-details part holds the item table, and it is the only table of items there |
| OrderEmail.ConfirmationOpening | src/lib/email.js:37-62 | the body opens with the header and its "Private Secure Order Invoice" tagline, the thank-you, and the customer row: the name as `CustomerName` gives it, the order's e-mail, and the phone or "Not provided" |
| OrderEmail.ConfirmationClosing | src/lib/email.js:121-136 | the body closes with the disclaimer, the support contact line and the copyright footer, in that order |
| OrderEmail.ConfirmationItems | src/lib/email.js:72-86 | the body holds the item table, and every item table in it lists exactly the order's item rows |
| OrderEmail.ConfirmationTotals | src/lib/email.js:89-108 | subtotal, processing fee and total are always shown |
| OrderEmail.ConfirmationAddress | src/lib/email.js:63-68 | a Shipping row with the address lines is present when some line remains, and absent otherwise |
| OrderEmail.ConfirmationShipping | src/lib/email.js:99-104 | the shipping charge row, with its caption, is present when the cost is positive and absent otherwise |
| OrderEmail.ConfirmationNotes | src/lib/email.js:114-119 | the notes box is present when notes are non-empty and absent otherwise |
| OrderEmail.Invoice | src/lib/email.js:144-182 | sent to the order's e-mail with subject `Invoice #<number> - BioVibe Peptides (Resent)`; exactly one attachment, `BioVibe_Invoice_<number>.pdf` of type `application/pdf`, holding the given buffer unchanged |
| OrderEmail.SubjectsShareOrderNumber | src/lib/email.js:145-150 | both subjects carry the same order number; the confirmation's is the invoice's with "Order " in front and without " (Resent)" |
| OrderEmail.SubjectPieces | src/lib/email.js:150 | the invoice subject is the confirmation subject's text after "Order ", followed by " (Resent)" |
| SiteContent.Given | src/models/SiteContent.js:14-96 | a path left out takes its declared default; a given value is kept |
| SiteContent.NewFeature | src/models/SiteContent.js:3-6 | a feature's title and description default to "" and keep given values |
| SiteContent.NewService | src/models/SiteContent.js:8-12 | a service's title and description default to "" and keep given values; its tags default to no tags and keep given tags |
| SiteContent.NewFeatures | src/models/SiteContent.js:50-58 | a features array left out is the four declared features; a given one is cast entry by entry, in order, same length |
| SiteContent.NewServices | src/models/SiteContent.js:69-76 | a services array left out is the three declared services; a given one is cast entry by entry, in order, same length |
| SiteContent.WithDefaults | src/models/SiteContent.js:14-96 | each of the fourteen text paths is the given value when given and its declared default when left out; the two arrays are cast as `NewFeatures` and `NewServices` say |
| SiteContent.EmptyInputGivesDefaults | src/models/SiteContent.js:105 | `create({})` yields exactly the declared default document |
| SiteContent.DefaultFeatureTitles | src/models/SiteContent.js:50-58 | four default features: Clarity, Compliance, Provider Support, Transparency, in that order |
| SiteContent.DefaultServiceTags | src/models/SiteContent.js:69-76 | three default services, each with two tags in the declared order |
| SiteContent.DefaultScalars | src/models/SiteContent.js:32-96 | the hero link is "/secure"; contact e-mail and copyright text are as declared |
| SiteContent.GetOrCreate | src/models/SiteContent.js:102-108 | the returned document is in the store. An empty store becomes exactly one document of defaults; a non-empty store is left unchanged. Distinct ids are preserved |
| SiteContent.GetOrCreateKeepsDocuments | src/models/SiteContent.js:102-108 | no stored document is modified or dropped |
| SiteContent.GetOrCreateIdempotent | src/models/SiteContent.js:102-108 | a second call returns the same document and changes nothing; from an empty store one document is left |
| SiteContent.ContentStore.FindOne | src/models/SiteContent.js:103 | the first stored document, or none exactly when the store is empty |
| SiteContent.ContentStore.Create | src/models/SiteContent.js:105 | appends one new document, the input cast against the defaults, under a fresh id |
| SiteContent.ContentStore.GetContent | src/models/SiteContent.js:102-108 | the new store and the returned document are those of `GetOrCreate` |

## Left out

- The JSX markup, Tailwind classes and SVG icons of the page (`page.js:104-290`) are not modelled; they are presentation. The inputs' change handlers and the `required` attributes are kept.
- `fetch`, JSON encoding and decoding, and the REST endpoints are not modelled. Each reply is a value of `SaveReply`, `DeleteReply` or `ListReply`, and each request a `Request` value.
- `confirm` and `alert` are not modelled as dialogs. The confirm answer is a boolean parameter and the alert text is a result.
- `console.error` on a failed list fetch (`page.js:32`) is not modelled; it is a log only.
- Concurrency is not modelled. Async replies interleaving with later clicks, and on `products` the last writer winning, are left out. `Submit` and `Delete` each run from their event to their reply in one step. `fetchProducts` is split into the request (`FetchProducts`) and the reply (`ReceiveProducts`). Mounting the page, with its `useEffect(() => fetchProducts(), [])` (`page.js:19-21`), is the constructor followed by `FetchProducts`.
- Floating point is not modelled: amounts are exact (cents on the page, reals in the mails). `toFixed(2)` in the mails, and the binary rounding of `subtotal * 0.05`, are left out.
- Prices that are not whole cents are not modelled.
- `Js.ParseInt`, `Js.ParseFloat` cover only an optional sign followed by decimal digits (and a fraction for `parseFloat`). Leading whitespace, `0x` prefixes, exponents and `Infinity` are not modelled.
- `Js.NatToString`: `toString` of numbers of 1e21 or more (exponent form) is not modelled.
- Js.SliceLast: takes n > 0 only. `slice(-0)` is `slice(0)` and returns the whole string, a case the code never reaches: its only call is `slice(-8)`.
- `Js.Upper` maps only the ASCII letters; other characters' case mappings are not modelled.
- The browser's `type="number"`, `step` and `min="0"` checks on the inputs are not modelled (`page.js:172-210`); the inputs may hold any text, so `Submit` sends, for example, a stock of "-3", which the browser would block.
- A refused save whose reply carries `error: null` alerts "Error: null" (`page.js:64`); `SaveReply.Refused` has only a present error text or none, and none stands for a missing `error`, which alerts "Error: undefined".
- The nodemailer transport, the `EMAIL_USER`/`EMAIL_PASS` environment variables and `sendMail` (`email.js:3-9, 141, 184`) are not modelled. The sender account is a parameter and the message is returned instead of sent.
- The literal HTML and CSS of both mail templates is not modelled; the body is the sequence of its sections with the values they show.
- PDF generation is not modelled; the buffer is an opaque byte sequence passed through.
- Mongoose internals are not modelled: schema typing and casting beyond field defaults, `timestamps`, sub-document ids and model registration (`SiteContent.js:98, 110`). Document ids come from a counter as a stand-in for generated ObjectIds. `findOne` returns the first stored document, in place of the database's natural order.
- The concurrent first-call race in `getContent` (two calls both finding no document) is not modelled; calls run one after another.
