# Pre-order pipeline of the NoLimit / AI Performance Wear landing site

This project models the one part of the site that has control flow worth
stating: taking a pre-order. It has three pieces.

- **The pre-order form** (`src/App.tsx` and `src/pages/Products.tsx`). The two
  pages hold identical copies of one component. It has five input cells and
  three status cells: `loading`, `error` and `submitted`. Its `handleSubmit`
  handler raises `loading` and clears `error`. It then inserts one row with
  `status: 'pending'` into the `preorders` table. A failed insert shows a fixed
  retry message; a successful one replaces the form by a thank-you note.
  `loading` always drops at the end. Module `PreorderForm` models it as a class
  `Form` whose methods update those cells. `Form.page` records which page
  renders it, and the initial choices are among that page's options. Beside the class sit pure transition functions over the status
  cells (`BeginUi`, `FinishUi`, `SubmitUi`, `Step`). One function runs a whole
  sequence of button presses and insert completions (`Run`), so the effect of
  the render guards (`!submitted`, `disabled={loading}`) can be stated.
- **The pre-order relay** (`api/sendPreorderEmail.js`). This HTTP handler only
  accepts POST. It insists on five body fields and mails the order to a fixed
  inbox. It answers 200 `{ok:true}`, or 500 `{error:'mail_error', message}`.
  Module `PreorderRelay` models it as the total function `Handle`. `Handle`
  maps (method, body, mail outcome) to (status, JSON body, mail sent or none).
- **The confirmation e-mail function**
  (`supabase/functions/send-confirmation-email/index.ts`). It sends the customer
  a confirmation through the e-mail provider. It answers `{success:true}`, or
  500 `{error:'Failed to send confirmation email'}`. Module `ConfirmationEmail`
  models it as the total function `Serve`. `Serve` maps (body read, provider
  outcome) to (provider request, response). A body that cannot be read is a
  rejection, not the handler's JSON 500.

Every external call is a parameter of the model: the datastore insert, the
mail transport and the provider's HTTP call. The model returns the record that
would be handed to that call: the inserted row, the composed mail or the
provider request. It also takes the call's reported outcome as input.

Module `JsValues` models the JavaScript values a request body can carry. It
defines the truth test that `!x` applies and the string conversion that a
template literal `${x}` applies. It covers the safe integers (magnitude at
most 2^53), which JavaScript prints as their exact decimal digits.
Module `Text` holds the substring predicates used to state what a subject line
or message body contains.

What the code does and does not check:

- No handler trims names or checks the e-mail grammar. The browser's `required`
  and `type="email"` attributes are the only checks.
- The relay takes any truthy `productType`, not just `shorts` or `shirts`.
- Neither handler checks field types. A field that the templates interpolate
  (relay: `firstName`, `lastName`, `email`, `size`, `deviceType`; edge function:
  `firstName`, `size`, `deviceType`) and that is an object with its own
  `toString` key passes the relay's guard, and the template then throws a
  TypeError inside the `try`: the relay answers its `mail_error` 500, the edge
  function its fixed 500, and neither sends anything. Such an object in a field
  that is only compared (the relay's `productType`), copied unconverted (the edge
  function's `email`) or unused does not throw.
- The inserted row has no `product_type` column.
- The form calls neither mail function, so there is no notifier stage after
  the insert in this code.
- The size options are XS to XL, with no XXL. The device options are the four
  watches, with no `garmin` and no `none`.
- The form handler does not guard itself against re-entry. Duplicate presses
  are stopped only by the disabled button and by hiding the form after a
  success.

## Model

The definitions the handlers are built from (`JsValues.Truthy`,
`JsValues.Decimal`, `PreorderRelay.Missing`, `PreorderRelay.Interpolable`,
`PreorderRelay.Subject`, `PreorderRelay.Html`, `PreorderForm.BeginUi`,
`PreorderForm.FinishUi` and `PreorderForm.Run`) have no row of their own: each
is described through the rows of the lemmas and handlers that state its
properties (`FalsyValues`, `DecimalDenotes`, `MissingNamesARequiredField`,
`InterpolableNamesEveryInterpolatedField`, `SubjectNamesCustomer`,
`HtmlCarriesOrder`, `SubmitUi`, `Step`, `InFlightWhileLoading`,
`AtMostOneOrder`).

| member | source | states |
|---|---|---|
| `PreorderRelay.Handle` | api/sendPreorderEmail.js:14-48 | A non-POST gets 405 `{error:'Method not allowed'}` and no mail. A POST whose body is `null`/`undefined` rejects. A POST missing a required field gets 400 `{error:'Missing required fields'}` and no mail, and this holds both ways. Exactly the requests that pass both guards and whose interpolated fields all convert to strings send one mail, the composed one. The status is 200 exactly when that mail was delivered, with body `{ok:true}`. It is 500 exactly when a guarded request had a field that cannot be converted, with `{error:'mail_error', message:'Cannot convert object to primitive value'}` and no mail, or when delivery failed, with the failure's message. No other status occurs. |
| `PreorderRelay.ConversionFailsBeforeSend` | api/sendPreorderEmail.js:27-46 | A body that passes the field guard but holds a value the templates cannot convert gets the TypeError's 500 and no mail, whatever the transport would report. |
| `PreorderRelay.OwnToStringRefused` | api/sendPreorderEmail.js:32 | A first name that is an object with its own `toString` key gets that 500 and no mail. |
| `PreorderRelay.InterpolableNamesEveryInterpolatedField` | api/sendPreorderEmail.js:32-39 | The templates complete exactly when `firstName`, `lastName`, `email`, `size` and `deviceType` all convert; `productType` is only compared. |
| `PreorderRelay.MethodCheckedFirst` | api/sendPreorderEmail.js:16-25 | For a non-POST, the result is the same 405 whatever the body (missing fields included) and whatever the transport. |
| `PreorderRelay.MissingNamesARequiredField` | api/sendPreorderEmail.js:23-25 | The field guard fails exactly when one of `firstName`, `lastName`, `email`, `productType`, `size` is absent or falsy. |
| `PreorderRelay.DeviceTypeOptional` | api/sendPreorderEmail.js:21-25 | Removing `deviceType` from a body that has the five required fields never yields the 400. It still sends a mail when the other fields convert. When `deviceType` itself converts, removing it changes neither the status nor whether a mail is sent. |
| `PreorderRelay.ProductLabel` | api/sendPreorderEmail.js:37 | The label is `AI Performance Shorts` exactly when `productType` is the string `shorts` (strict equality). Otherwise it is `AI Performance Shirts`. |
| `PreorderRelay.Compose` | api/sendPreorderEmail.js:29-41 | The mail is always from the fixed pre-orders sender and to `contact@nolimit.pro`. |
| `PreorderRelay.SubjectNamesCustomer` | api/sendPreorderEmail.js:30-32 | The recipient is the fixed inbox. The subject contains the interpolated `firstName`, and after it the interpolated `lastName`. |
| `PreorderRelay.HtmlCarriesOrder` | api/sendPreorderEmail.js:33-40 | The mail body contains the first name, last name, e-mail, product label, size and device type, each as interpolated and each between the label that names it and the next one (`Size:` then the size then `Device Type:`). |
| `PreorderRelay.MailIndependentOfOutcome` | api/sendPreorderEmail.js:27-47 | Whether a mail is sent, and which mail, does not depend on what the transport reports. Only the reply does. |
| `JsValues.FalsyValues` | api/sendPreorderEmail.js:23 | Among the values modelled, the falsy ones are exactly `undefined`, `null`, `false`, `0` and the empty string. |
| `JsValues.Display` | api/sendPreorderEmail.js:32 | Interpolating a string yields it unchanged. An interpolated (safe-integer) number starts with `-` exactly when it is negative. It is defined exactly on the values `Printable` admits: an object with its own `toString` key throws instead. |
| `JsValues.DecimalDenotes` | api/sendPreorderEmail.js:35-39 | The decimal numeral printed for a safe integer denotes that number. |
| `JsValues.DecimalInjective` | api/sendPreorderEmail.js:38 | Distinct numbers print as distinct numerals. |
| `ConfirmationEmail.Serve` | supabase/functions/send-confirmation-email/index.ts:5-47 | It rejects exactly when the body cannot be read, with that reason; no provider request is made and the handler's JSON 500 is not sent. Otherwise it sends one provider request, built from the body, exactly when `firstName`, `size` and `deviceType` all convert to strings. The response is 200 `{success:true}` exactly when a request was sent and the provider answered ok. In every other case, a field that cannot be converted, not-ok or thrown, it is 500 `{error:'Failed to send confirmation email'}`. |
| `ConfirmationEmail.ConversionFailsBeforeFetch` | supabase/functions/send-confirmation-email/index.ts:8-25 | A readable body holding a value the template cannot convert gets the 500 response and no provider request, whatever the provider would do. |
| `ConfirmationEmail.Request` | supabase/functions/send-confirmation-email/index.ts:9-32 | The outbound message's `to` is the request's `email` field, unconverted. The sender and subject are fixed. |
| `ConfirmationEmail.NotOkIsLikeThrow` | supabase/functions/send-confirmation-email/index.ts:34-45 | A not-ok provider answer and a thrown provider call give the same result. |
| `ConfirmationEmail.UnreadableIsNotFailure` | supabase/functions/send-confirmation-email/index.ts:6-8 | A failed read of the body yields a rejection whatever the provider would do. |
| `ConfirmationEmail.HtmlCarriesOrder` | supabase/functions/send-confirmation-email/index.ts:19-30 | The message body contains the interpolated `firstName`, `size` and `deviceType`, each between the template text before and after it (`Size: ` then the size then the device line). |
| `PreorderForm.OptionValuesRoundTrip` | src/App.tsx:216-236 | Reading back the `value` of any size or device option gives back that size or device. |
| `PreorderForm.SizeOptions` | src/App.tsx:210-221 | The size select offers exactly XS, S, M, L, XL, each once. |
| `PreorderForm.DeviceOptions` | src/App.tsx:227-237 | The device select offers exactly `apple_watch`, `samsung_watch`, `whoop`, `fitbit`, each once. |
| `PreorderForm.EveryChoiceOfferedOnce` | src/pages/Products.tsx:147-174 | On either page, every size and every device occurs exactly once among the options. |
| `PreorderForm.PagesOfferSameOptions` | src/pages/Products.tsx:153-173 | The products page offers the same options as the landing page. |
| `PreorderForm.DefaultEntry` | src/App.tsx:7-11 | The initial entry has empty text fields, size `M` and device `apple_watch`. Both defaults are among the offered options. |
| `PreorderForm.RowFor` | src/App.tsx:22-33 | The inserted row has exactly the columns `email`, `first_name`, `last_name`, `size`, `device_type` and `status`, with `status` = `pending`. |
| `PreorderForm.RowRecordsEntry` | src/pages/Products.tsx:21-32 | The row can be read back into exactly the entry it was built from, so every column copies its form cell. |
| `PreorderForm.SubmitUi` | src/App.tsx:16-43 | After the handler, `loading` is false on every path. `submitted` becomes true exactly when the insert succeeded, and is unchanged on failure. The error banner shows exactly when the insert failed, and then it holds the fixed retry message. On success `error` is empty. |
| `PreorderForm.Step` | src/App.tsx:155-247 | A press issues an insert exactly when the form is shown (`!submitted`) and the button enabled (`!loading`). Otherwise nothing changes. A settle completes an insert exactly when one is in flight. It is accepted exactly when the datastore reports success. An issued insert leaves the cells as `BeginUi` sets them, a settled one as `FinishUi` does. |
| `PreorderForm.InFlightWhileLoading` | src/App.tsx:239-244 | Over any sequence of events, the inserts issued balance the inserts settled: `loading` is raised exactly while one insert is outstanding. A second insert never starts before the first settles. |
| `PreorderForm.AtMostOneOrder` | src/pages/Products.tsx:92-193 | Over any sequence of events a form places at most one order. Once `submitted`, no further insert is issued and `submitted` stays true. |
| `PreorderForm.FreshFormSummary` | src/pages/Products.tsx:11-42 | From the initial state (`loading` false, `error` empty, `submitted` false), inserts issued equal inserts settled plus one in flight, and at most one is accepted. |
| `PreorderForm.Form.constructor` | src/App.tsx:7-14 | A new form has the default entry and the initial status cells, and its initial size and device are among the options of the page that renders it. |
| `PreorderForm.Form.SetFirstName` | src/App.tsx:171 | Only `firstName` changes. |
| `PreorderForm.Form.SetLastName` | src/App.tsx:185 | Only `lastName` changes. |
| `PreorderForm.Form.SetEmail` | src/App.tsx:200 | Only `email` changes. |
| `PreorderForm.Form.SetSize` | src/App.tsx:213 | Only `size` changes. |
| `PreorderForm.Form.SetDeviceType` | src/App.tsx:230 | Only `deviceType` changes. |
| `PreorderForm.Form.Begin` | src/App.tsx:17-33 | Before the insert runs, `loading` is true and `error` is empty. The returned row is `RowFor` of the unchanged entry. |
| `PreorderForm.Form.Finish` | src/App.tsx:35-42 | The status cells become `FinishUi` of the old ones: success sets `submitted`, failure sets the fixed message, and `loading` drops either way. |
| `PreorderForm.Form.HandleSubmit` | src/pages/Products.tsx:15-42 | The status cells become `SubmitUi` of the old ones, the entry is unchanged, and the one inserted row is `RowFor` of the entry. |
| `PreorderForm.Form.Press` | src/pages/Products.tsx:176-179 | The status cells and the issued insert follow `Step` on a press. An issued insert carries `RowFor` of the entry. |

## Left out

- The datastore insert, the mail transport, the provider's HTTP call, environment-variable reads (SMTP settings, API key) and JSON/HTML serialisation. Each call is an outcome parameter. The request headers and URL of the provider call are not modelled.
- Async suspension and interleaving. Each handler is one sequential step. The form splits at its single `await` into `Begin` and `Finish`.
- React's asynchronous re-rendering. `Step` assumes the button is disabled as soon as `loading` is raised. Two presses landing before the re-render are not modelled.
- `PreorderForm.Form.Finish` requires `loading`. It is the continuation of an insert that `Begin` started, and nothing else lowers `loading` in between. `Step` ignores a settle with no insert in flight for the same reason.
- `console.error` logging in the handlers' `catch` blocks.
- `JsValues.Display`: numbers are safe integers, of magnitude at most 2^53. Larger numbers are not modelled. Above 2^53 `String` prints the shortest digits that read back to the same double, padded with zeros (`2**64` prints as `18446744073709552000`). Non-integers, `NaN`, `-0` and the exponent form from 10^21 up are not modelled either. Arrays are not modelled: `Obj` is a non-array object. It prints as `[object Object]` unless it has its own `toString` key, in which case the conversion throws.
- `JsValues.DecimalDenotes`: the numeral is exact for every natural number. It matches what JavaScript prints only on the safe integers, which are the only numbers `Display` is applied to.
- `PreorderRelay.Handle`: a thrown error's `message` is a string. A thrown non-`Error` value, whose missing `message` JSON would omit, is not modelled.
- `ConfirmationEmail.Serve`: a failed body read is a rejected promise. The platform's own reply to it is outside this code.
- The browser's `required` and `type="email"` input checks, the page markup, the scroll-reveal observer, the navigation bar, the scroll handler and its throttle, the 3D viewer, and the static pages. These have no logic of the core.
