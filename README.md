# Response mapping of the Kentico Cloud Delivery SDK, modelled in Dafny

This project models the response-mapping layer of the Kentico Cloud Delivery
TypeScript SDK and proves what that layer promises:

- **Field value objects** (`FieldTypes`, `field_types.dfy`). Each one normalises the
  raw JSON value of one content element. Text, number and date-time fields keep the
  raw value. Multiple-choice and asset fields build one record per array element, in
  order, and nothing for a value that is not an array. The url-slug field asks an
  optional resolver for its url and emits soft diagnostics. The rich-text field
  memoises the HTML its resolver produces. The immutable fields form the tagged union
  `Field`. The rich-text field is the class `RichTextField`, whose `resolvedHtml` cache
  `GetHtml` updates in place.
- **Field records** (`FieldModels`, `field_models.dfy`): `AssetModel` and
  `MultipleChoiceOption`, which store their constructor arguments.
- **Response envelopes** (`Responses`, `responses.dfy`): the listing response is a
  class. Its constructor stores the items and the pagination. It then computes
  `isEmpty`, `firstItem` and `lastItem` once.
- **Request shaping** (`QueryService`, `query_service.dfy`). This covers the choice of
  preview mode and the missing-preview-key error. It also covers the request url with
  its `?`/`&` query-string rule, the authorization header, and pagination copied from
  the payload.
- **The demo `Character` model** (`CharacterModel`, `character.dfy`): its field-name
  resolver and its rich-text resolver.

Raw JSON is the datatype `JsonValues.Json` (`json.dfy`). The same module holds the
JavaScript semantics the mapping relies on: truthiness, reading a property, which
throws on `undefined` and `null`, and `${…}` string conversion. `undefined` and
`null` optional values are `Option.None` (`wrappers.dfy`). A thrown exception is a
`Result.Failure`. Console output is a returned list of diagnostic lines.

The model follows the code in four places where it may surprise a reader:

- A listing response is `isEmpty` only when `items` is absent, so an empty array gives
  `isEmpty == false`. The member's own comment (lib/models/item/responses.ts:9,
  "Indicates if response contains any items") suggests the other reading.
- The rich-text cache is tested for truthiness, so an empty resolved string is resolved
  again on every `getHtml()` call. The field's comment
  (lib/fields/field-types.ts:105-106) speaks of resolving the html only once.
- `getUrl` with no resolver and logging disabled calls the missing callback, which
  throws; the model returns a `Failure`.
- An asset or multiple-choice array with an `undefined` or `null` element throws on
  reading the element's `name`; the model returns a `Failure`.

## Model

| member | source | states |
|---|---|---|
| `FieldModels.NewAssetModel` | lib/fields/field-models.ts:16-22 | Construction accepts every argument and stores name, type, size, description and url, each in its own position. The record has its declared types exactly when the five arguments do. |
| `FieldModels.NewMultipleChoiceOption` | lib/fields/field-models.ts:33-36 | Construction accepts every argument and stores name and codename unchanged. |
| `FieldTypes.AssetFromRawIsWellTyped` | lib/fields/field-models.ts:17-21 | An asset read from a raw asset of the documented shape is well typed: `size` is a number and the other four attributes are strings. |
| `FieldTypes.NewTextField` | lib/fields/field-types.ts:27-32 | `text` is the raw value, unchanged; the type tag is `text`. |
| `FieldTypes.NewNumberField` | lib/fields/field-types.ts:164-169 | `number` is the raw value, unchanged; the type tag is `number`. |
| `FieldTypes.NewDateTimeField` | lib/fields/field-types.ts:90-95 | The date is an opaque wrapper of the raw value; the type tag is `datetime`. |
| `FieldTypes.NewMultipleChoiceField` | lib/fields/field-types.ts:53-68 | A non-array value (falsy or not) gives no options. An array gives one option per element, in input order, with the element's name and codename. Construction fails exactly when some element is `undefined`/`null`. The type tag is `multiple_choice`. |
| `FieldTypes.NewAssetsField` | lib/fields/field-types.ts:190-208 | A non-array value gives no assets. An array gives one asset per element, in order, with all five attributes copied. Construction fails exactly when some element is `undefined`/`null`. The type tag is `asset`. |
| `FieldTypes.GetUrl` | lib/fields/field-types.ts:242-255 | No resolver with logging: url `undefined` and exactly one diagnostic. No resolver without logging: failure. With a resolver: the url is the resolver's result even when empty, and a falsy result with logging gives exactly one diagnostic. There is never more than one diagnostic, and none without logging. |
| `FieldTypes.NewUrlSlugField` | lib/fields/field-types.ts:232-240 | Stores name, value and content item. The url is the resolver's result, or `undefined` without one. Fails exactly as `getUrl` does. The type tag is `url_slug`. |
| `FieldTypes.RichTextField.constructor` | lib/fields/field-types.ts:98-131 | Stores its arguments. The type tag is `rich_text`. `items` equals `modularItems`. Nothing is cached and the resolver has not run. |
| `FieldTypes.RichTextField.GetHtml` | lib/fields/field-types.ts:133-143 | Always returns the resolver's result for this field. A non-empty stored result is returned without invoking the resolver and leaves the cache unchanged. Otherwise the resolver runs once more and its result is stored. Only the cache and the invocation count change. |
| `FieldTypes.GetHtmlTwice` | lib/fields/field-types.ts:133-143 | Two calls return the same string, the resolver's result. A non-empty result is resolved at most once. An empty one is resolved on both calls. |
| `Responses.DeliveryItemListingResponse.constructor` | lib/models/item/responses.ts:29-35 | Stores `items` and `pagination` unchanged. Establishes `isEmpty` iff `items` is absent. `firstItem` and `lastItem` are set iff `items` has an element, and are then `items[0]` and `items[len-1]`. |
| `Responses.DeliveryItemListingResponse.InitIsEmpty` | lib/models/item/responses.ts:37-44 | `isEmpty` is true exactly when `items` is null/undefined; any array gives false. |
| `Responses.DeliveryItemListingResponse.InitFirstAndLastItem` | lib/models/item/responses.ts:46-57 | For absent items or length < 1, first and last item stay as they were. Otherwise they are the first and the last element. |
| `Responses.SingletonFirstIsLast` | lib/models/item/responses.ts:55-56 | For a one-element list, `firstItem == lastItem ==` that element. |
| `Responses.EmptyArrayIsNotEmpty` | lib/models/item/responses.ts:37-53 | An empty items array gives `isEmpty == false` and leaves first and last item unset. |
| `QueryService.IsPreviewModeEnabled` | lib/services/query.service.ts:50-56 | A non-null query-level `usePreviewMode` decides. Otherwise preview is on iff the config's `enablePreviewMode` is exactly `true`. |
| `QueryService.GetDeliveryUrl` | lib/services/query.service.ts:58-68 | Fails with the missing-key message iff preview mode is on and the preview key is falsy. Otherwise gives the preview url in preview mode and the base url if not. |
| `QueryService.GetBaseUrl` | lib/services/query.service.ts:70-72 | The delivery url, `/` and the project id; fails exactly when the delivery url does. |
| `QueryService.AddOptionsToUrl` | lib/services/query.service.ts:74-86 | Absent options leave the url unchanged. Otherwise the result is the url followed by one `param=value` per option, in order: `?` first when the url has no `?`, `&` first when it has one, `&` between options. |
| `QueryService.WithOptionsStep` | lib/services/query.service.ts:77-82 | Adding an option after others uses `?` iff the url built so far contains no `?`. After the first option it always contains one. |
| `QueryService.AtMostOneQuestionMarkAdded` | lib/services/query.service.ts:77-82 | The result holds the url's `?`s, the options' own `?`s, and one more only when there are options and the url had no `?`. |
| `QueryService.GetUrl` | lib/services/query.service.ts:141-143 | Fails exactly on the missing preview key. Otherwise it is deliveryUrl + `/` + projectId + action followed by the options' query string, so that prefix is kept. |
| `QueryService.GetHeadersInternal` | lib/services/query.service.ts:121-129 | No headers outside preview mode. In preview mode, exactly one: `authorization: bearer <previewApiKey>`. |
| `QueryService.HeadersToJson` | lib/services/query.service.ts:134-136 | The object's keys are the header names. Each name maps to the value of its last header. |
| `QueryService.GetHeadersJson` | lib/services/query.service.ts:131-139 | An empty object outside preview mode. Otherwise `{authorization: "bearer " + previewApiKey}`. |
| `QueryService.HandleError` | lib/services/query.service.ts:88-93 | Returns its argument unchanged. It logs it once with advanced logging and never without. |
| `QueryService.PaginationOf` | lib/services/query.service.ts:161-166 | skip, limit, count and next_page are copied verbatim from the payload. |
| `QueryService.GetSingleResponse` | lib/services/query.service.ts:145-152 | The single-item response holds the mapped item unchanged. |
| `QueryService.GetMultipleResponse` | lib/services/query.service.ts:154-169 | A fresh listing response holding the mapped items, satisfying the listing invariant, with pagination copied verbatim. |
| `QueryService.GetMultipleTypeResponse` | lib/services/query.service.ts:104-119 | The type listing holds the mapped types and the payload's pagination, copied verbatim. |
| `CharacterModel.ResolveFieldName` | src/app/models/character.class.ts:11-20 | `somenumber` → `someNumber`, `somedate` → `someDateTime`, `somerichtext` → `someRichText`, each an iff. Every other name resolves to `undefined`. |
| `CharacterModel.ResolvedNamesAreNotResolvedAgain` | src/app/models/character.class.ts:11-20 | Matching is exact: the camel-cased names the resolver produces resolve to `undefined`. |
| `CharacterModel.RichTextResolver` | src/app/models/character.class.ts:21-23 | The result is `<h3>`, the name's text, `</h3>`. The text can be read back from between the tags, and is the name's string itself when it is one. |

## Left out

- The fetch pipelines `getSingleItem`, `getMultipleItems`, `getSingleType` and `getMultipleTypes` are left out. They are network I/O and rxjs Observables.
- `getSingleTypeResponse` and the `QueryService` constructor are left out. They only hand the payload to the type and item mappers, which are not part of this model.
- Console output is not real output. `getUrl`'s lines are returned as diagnostics, and `handleError` returns the list of errors it would log.
- `RichTextResolver` is an opaque function that `GetHtml` calls. Its HTML parsing, placeholder substitution, logging and cycle handling are not part of this model.
- `ItemMapService` and `TypeMapService` are opaque mapper functions. With them go the content-item assembler and the field-type registry, so a raw element never selects its field constructor in this model.
- `DateTimeField` keeps only an opaque wrapper of its raw value. JavaScript `Date` parsing is not modelled.
- `IQueryParameter` is reduced to the two strings its `GetParam()` and `GetParamValue()` return.
- JavaScript numbers are modelled as integers, so fractions, `NaN` and `-0`, including their falsiness, are not captured.
- `null` and `undefined` are both `None` for `items`, `usePreviewMode`, `enablePreviewMode` and `previewApiKey`. An absent preview key prints as `undefined` in the header; a `null` key, which would print as `null`, is not distinguished.
- The fields are constants of the model, and `RichTextField.items` changes only in its constructor. Assignment to the public fields from outside the classes is not modelled.
- `JsonValues.Member` reads only an object's own members. No standard prototype has a property under the attribute names the fields read.
- `Character` holds its `system` block and its four declared properties, each typed as the field kind it declares. The content item's raw `elements` are not kept. A character whose `name` property is missing, which would throw, is not modelled.
- The `UrlSlugField` variant keeps name, value, content item and the resolved url. It does not keep the `urlSlugResolver` and `enableAdvancedLogging` members the constructor also stores; they only serve `getUrl`, which runs once during construction.
