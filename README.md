# Card component core: secured-fields events, bin lookup, layout and error panel

This Dafny project models three pieces of the card payment component of a
client-side payment-form library:

- **The secured-fields event handlers** (`secured_fields_handlers.dfy`,
  module `SecuredFieldsHandlers`). The card number, expiry date and security
  code are typed into isolated frames. The frames report events: loaded,
  configured, a field became valid or invalid, a brand was detected, an error,
  a focus change, an autocompleted holder name. Each handler folds one event
  into the component state record `CardState`. That record holds the
  encrypted blobs, the per-field validity and errors, the brand and its
  cvc/expiry policies, the unsupported-card flag, the overall validity and
  the load status. Some handlers refuse an event and return `false`. The
  others commit the new state and then emit callbacks to the merchant. The
  class `SecuredFieldsProvider` keeps the state, the per-field character
  counts recorded on focus, the load timeout and the sequence `trace` of
  emitted callbacks. The state updaters that the handlers pass to `setState`
  are the pure functions `FieldValidUpdate`, `BrandUpdate` and `ErrorUpdate`.
- **The bin-lookup extension** (`bin_lookup_extensions.dfy`, module
  `BinLookupExtensions`). It turns a bin-lookup response into three things:
  the dual-brand selector state, the stored lower-cased issuing country, and
  at most one `processBinLookupResponse` message to the secured fields. It
  also forwards the shopper's choice in the dual-brand selector.
- **The card input utilities** (`card_input_utils.dfy`, module
  `CardInputUtils`). These are the layout choice (`getLayout`), the ordering
  of active errors for the error panel (`sortErrorsForPanel`), the label key
  of a field (`mapFieldKey`) and the brand icon type (`getCardImageUrl`).
  The panel ordering relies on `Array.prototype.sort`, which ECMAScript
  requires to be stable. `rank_sort.dfy` (module `RankSort`) gives that stable
  sort as a function. It proves the sort ordered, a permutation and stable,
  and proves that a stable ordering has only one possible result.

`common.dfy` holds the shared `Option` (null/undefined), string truthiness,
`obj[key]` lookup and `Array.prototype.indexOf`.

Each `setState` is modelled as an immediate commit. The state is replaced
and the callbacks run by its completion callback are appended to `trace`.
The load timeout is an explicit event, `OriginKeyTimeoutFires`, for a timer
handle. Unseen collaborators are parameters of the model:
`createCardVariantSwitcher`, `getImageUrl`, the secured-fields
`getCardImageUrl`, `i18n.get` and the layout constants.

Three behaviours of the code are stated as they are written:

- The comment at `SecuredFieldsProviderHandlers.ts:88-94` says that a field
  reporting `valid: true` has its error marked `false`. Line 95 does
  something else: it keeps any error already recorded for the field and only
  fills a missing one with `false`. The model follows line 95.
  `FieldValidKeepsReportedError` proves that an error code survives a later
  `valid: true` report.
- `handleOnConfigSuccess` sets the status to `ready` unconditionally
  (line 50), even after the timeout has set `originKeyError`
  (`HandleOnConfigSuccess`).
- `handleOnLoad` keeps only the handle of the timer it armed last (line 34),
  and `handleOnConfigSuccess` clears only that handle (line 48). The model
  keeps the set of armed timers that have not fired or been cleared. With it,
  `TwoLoadsBothTimersFire` proves that two `onLoad` events with no
  configuration success emit two `onError` callbacks.

## Model

| member | source | states |
|---|---|---|
| `SecuredFieldsHandlers.FieldIsInError` | packages/lib/src/components/internal/SecuredFields/SFP/SecuredFieldsProviderHandlers.ts:108-110 | `false` exactly when the policy is optional or hidden and the recorded character count is exactly 0; otherwise the recorded error, undefined when there is none |
| `SecuredFieldsHandlers.BrandUpdate` | packages/lib/src/components/internal/SecuredFields/SFP/SecuredFieldsProviderHandlers.ts:117-157 | sets the brand and the social-security flag; the cvc and expiry policies come from the event, defaulting to required; an error key changes only if it is the cvc key, the date key (one date field) or the month and year keys (two date fields), and the new brand forgives it, and then it becomes `false`; every other field of the state is unchanged |
| `SecuredFieldsHandlers.FieldValidUpdate` | packages/lib/src/components/internal/SecuredFields/SFP/SecuredFieldsProviderHandlers.ts:85-96 | `data` and `valid` get the blob and validity under the encrypted field name, and all other keys keep their values; the error under the field type keeps any existing value and becomes `false` only when absent; nothing else changes |
| `SecuredFieldsHandlers.ErrorUpdate` | packages/lib/src/components/internal/SecuredFields/SFP/SecuredFieldsProviderHandlers.ts:174-182 | the field type's error becomes the code, or `false` for a falsy code; the unsupported flag becomes the argument, `false` when omitted; only a true flag clears the card number's blob, marks it invalid and makes the form invalid; other keys and fields are unchanged |
| `SecuredFieldsHandlers.SecuredFieldsProvider.BrandImageUrl` | packages/lib/src/components/internal/SecuredFields/SFP/SecuredFieldsProviderHandlers.ts:162 | the merchant's configured icon for the brand wins; otherwise the default card image for the brand and loading context |
| `SecuredFieldsHandlers.SecuredFieldsProvider.HandleOnLoad` | packages/lib/src/components/internal/SecuredFields/SFP/SecuredFieldsProviderHandlers.ts:29-41 | forwards `onLoad`, then arms a fresh timeout and keeps its handle as the one to clear |
| `SecuredFieldsHandlers.SecuredFieldsProvider.OriginKeyTimeoutFires` | packages/lib/src/components/internal/SecuredFields/SFP/SecuredFieldsProviderHandlers.ts:34-40 | a pending timer that fires while the status is not ready sets `originKeyError` and emits exactly one `onError` with code originKeyError and field type defaultError; otherwise state and callbacks are unchanged |
| `SecuredFieldsHandlers.SecuredFieldsProvider.HandleOnConfigSuccess` | packages/lib/src/components/internal/SecuredFields/SFP/SecuredFieldsProviderHandlers.ts:47-54 | clears the last armed timeout, sets status ready whatever it was, then forwards `onConfigSuccess` |
| `SecuredFieldsHandlers.SecuredFieldsProvider.HandleOnAllValid` | packages/lib/src/components/internal/SecuredFields/SFP/SecuredFieldsProviderHandlers.ts:59-73 | refused, with state and callbacks untouched, exactly when the card is unsupported; otherwise sets the overall validity and emits `onChange` with the new state before `onAllValid`; keeps the unsupported-card invariant |
| `SecuredFieldsHandlers.SecuredFieldsProvider.HandleOnFieldValid` | packages/lib/src/components/internal/SecuredFields/SFP/SecuredFieldsProviderHandlers.ts:79-106 | refused, with nothing changed, exactly for the card-number field while the card is unsupported; otherwise applies `FieldValidUpdate` and emits `onChange` then `onFieldValid`; keeps the unsupported-card invariant |
| `SecuredFieldsHandlers.SecuredFieldsProvider.HandleOnBrand` | packages/lib/src/components/internal/SecuredFields/SFP/SecuredFieldsProviderHandlers.ts:116-166 | applies `BrandUpdate` with the focus-recorded character counts, then emits `onChange` and `onBrand` with the event and its icon URL |
| `SecuredFieldsHandlers.SecuredFieldsProvider.HandleOnError` | packages/lib/src/components/internal/SecuredFields/SFP/SecuredFieldsProviderHandlers.ts:171-189 | always applied (returns true); applies `ErrorUpdate` and emits `onChange`; afterwards the unsupported-card invariant holds |
| `SecuredFieldsHandlers.SecuredFieldsProvider.HandleFocus` | packages/lib/src/components/internal/SecuredFields/SFP/SecuredFieldsProviderHandlers.ts:191-195 | records the field's character count and forwards `onFocus`; the component state is not touched |
| `SecuredFieldsHandlers.SecuredFieldsProvider.HandleOnAutoComplete` | packages/lib/src/components/internal/SecuredFields/SFP/SecuredFieldsProviderHandlers.ts:198-204 | `onChange` sees the autocompleted holder name; afterwards the name is null again and `onAutoComplete` is forwarded |
| `SecuredFieldsHandlers.SecuredFieldsProvider.HandleOnNoDataRequired` | packages/lib/src/components/internal/SecuredFields/SFP/SecuredFieldsProviderHandlers.ts:210-212 | sets status ready and emits the change `{ isSfpValid: true }` |
| `SecuredFieldsHandlers.FieldValidKeepsReportedError` | packages/lib/src/components/internal/SecuredFields/SFP/SecuredFieldsProviderHandlers.ts:95 | after an error code for a field, a later validity report for it keeps that code |
| `SecuredFieldsHandlers.ClearedErrorStaysClearedOnFieldValid` | packages/lib/src/components/internal/SecuredFields/SFP/SecuredFieldsProviderHandlers.ts:176 | after an error event with a falsy code, a validity report leaves the field's error `false` |
| `SecuredFieldsHandlers.BrandChangeForgivesEmptyCvc` | packages/lib/src/components/internal/SecuredFields/SFP/SecuredFieldsProviderHandlers.ts:124-150 | switching to a brand whose cvc is optional or hidden clears the cvc error when the cvc was last seen with 0 characters and keeps it otherwise |
| `SecuredFieldsHandlers.ConfigSuccessBeforeTimeout` | packages/lib/src/components/internal/SecuredFields/SFP/SecuredFieldsProviderHandlers.ts:29-54 | `onLoad`, then `onConfigSuccess`, then the timer firing: status ready and no `onError` emitted |
| `SecuredFieldsHandlers.TimeoutWithoutConfigSuccess` | packages/lib/src/components/internal/SecuredFields/SFP/SecuredFieldsProviderHandlers.ts:29-41 | `onLoad` with no `onConfigSuccess` on a form not yet ready: status `originKeyError` and exactly one `onError`, even if the timer is fired twice |
| `SecuredFieldsHandlers.TwoLoadsBothTimersFire` | packages/lib/src/components/internal/SecuredFields/SFP/SecuredFieldsProviderHandlers.ts:29-41 | two `onLoad` events with no `onConfigSuccess` on a form not yet ready: both timers fire, so two `onError` callbacks follow the two forwarded `onLoad` events, and the status is `originKeyError` |
| `BinLookupExtensions.ToLower` | packages/lib/src/components/internal/SecuredFields/binLookup/extensions.ts:20 | same length; upper-case ASCII letters become their lower-case letters, every other character is kept, no upper-case letter remains |
| `BinLookupExtensions.StoredIssuingCode` | packages/lib/src/components/internal/SecuredFields/binLookup/extensions.ts:20-21 | the response's issuing country lower-cased, or null when the response or a non-empty code is absent |
| `BinLookupExtensions.CardExtensions.ProcessBinLookup` | packages/lib/src/components/internal/SecuredFields/binLookup/extensions.ts:19-74 | always stores the lower-cased issuing country; an absent or empty response clears the selector, selects `''` and sends the reset brand (the `type` prop only on a reset of a non-generic card) with the `cvcPolicy` prop; several brands: the switcher's selector and selection, and only its lead brand is sent with the raw issuing code; one brand: no selector, that brand selected, the list sent unchanged; no brands: only the country changes; at most one message per call |
| `BinLookupExtensions.BrandObjectsFor` | packages/lib/src/components/internal/SecuredFields/binLookup/extensions.ts:90-95 | exactly the held elements' brand objects whose brand equals the chosen value, no more than there are elements |
| `BinLookupExtensions.MatchingBrandObjects` | packages/lib/src/components/internal/SecuredFields/binLookup/extensions.ts:90-95 | the accumulator loop collects `BrandObjectsFor` of the elements, in element order |
| `BinLookupExtensions.CardExtensions.HandleDualBrandSelection` | packages/lib/src/components/internal/SecuredFields/binLookup/extensions.ts:79-102 | selects the value and sends the matching brand objects, possibly none, with the stored issuing country; the selector elements are unchanged |
| `CardInputUtils.ImageType` | packages/lib/src/components/Card/components/CardInput/utils.ts:21 | 'nocard' for the brand 'card' or an empty or missing brand, otherwise the brand; never empty and never 'card' |
| `CardInputUtils.GetCardImageUrl` | packages/lib/src/components/Card/components/CardInput/utils.ts:19-27 | the brand `card`, or a missing or empty brand, asks the image service for the `nocard` image; any other brand asks for its own name; always with the `svg` extension and the loading context, and the brand passed on |
| `CardInputUtils.AddressLayoutIsFieldNames` | packages/lib/src/components/Card/components/CardInput/utils.ts:53 | flattening an address schema two levels and dropping the numbers gives exactly its field names in reading order |
| `CardInputUtils.GetLayout` | packages/lib/src/components/Card/components/CardInput/utils.ts:29-64 | with country schemas: the credit-card layout followed by the schema's field names, ignoring KCP and SSN; otherwise SSN beats KCP, which beats the plain credit card; in every family the name-top or name-bottom variant is used only when a holder name is present and required, top when it is positioned on top |
| `CardInputUtils.AriaLabelKey` | packages/lib/src/components/Card/components/CardInput/utils.ts:82-86 | `<ach or giftcard>.<key>.aria.label` for those two keys, `creditCard.<key>.aria.label` for every other |
| `CardInputUtils.MapFieldKey` | packages/lib/src/components/Card/components/CardInput/utils.ts:66-88 | holder name and tax number translate `creditCard.<key>`; social security number translates `boleto.<key>`; address fields translate a non-empty country-specific label when there is one and the key otherwise; every other key translates its aria label key |
| `CardInputUtils.KeysInError` | packages/lib/src/components/Card/components/CardInput/utils.ts:92-94 | a key is listed exactly when one of the entries has that key and a truthy error |
| `CardInputUtils.KeysInErrorDistinct` | packages/lib/src/components/Card/components/CardInput/utils.ts:92-94 | with unique object keys, no key is listed twice |
| `CardInputUtils.SortErrorsForPanel` | packages/lib/src/components/Card/components/CardInput/utils.ts:90-113 | null exactly when no error is truthy; otherwise the field list is the stable sort by layout position of the keys in error, and there is one message per field, in the same order, formed as `<label>: <message>.`; the message is the error object's own `errorI18n` property whenever it has one, rendered as `undefined` or `null` when it holds those, and otherwise the translation of its `errorMessage` |
| `CardInputUtils.FieldListIsOrderedErrorKeys` | packages/lib/src/components/Card/components/CardInput/utils.ts:92-98 | the field list holds exactly the keys with a truthy error, each once, in non-decreasing layout index (keys missing from the layout, index -1, first), and keys at the same index keep their entry order |
| `RankSort.SortByRankFacts` | packages/lib/src/components/Card/components/CardInput/utils.ts:95 | the sort is a permutation of its input, ordered by rank, and stable |
| `RankSort.SortByRankResortAppend` | packages/lib/src/components/Card/components/CardInput/utils.ts:92-98 | pushing a key and re-sorting the sorted list gives the sort of all keys so far |
| `RankSort.StableOrderIsUnique` | packages/lib/src/components/Card/components/CardInput/utils.ts:95 | two rank-ordered sequences with the same elements of each rank in the same order are equal |
| `RankSort.SortByRankIsTheStableSort` | packages/lib/src/components/Card/components/CardInput/utils.ts:95 | any stable ordering by rank of a list equals the model's sort of it |
| `Common.IndexOf` | packages/lib/src/components/Card/components/CardInput/utils.ts:95 | -1 exactly when the key is not in the layout; otherwise the position of its first occurrence |
| `Common.Get` | packages/lib/src/components/internal/SecuredFields/SFP/SecuredFieldsProviderHandlers.ts:109 | a property read: the stored value when the key is present, undefined otherwise |

## Left out

- Preact's deferred `setState`: each commit is immediate. So in `HandleOnAutoComplete` the model emits `onAutoComplete` after the `onChange`. Under Preact the synchronous `onAutoComplete` call runs before the commit callback. In the same way, the timeout's `onError` is emitted after the `originKeyError` status is set, not before the re-render.
- Time: the timeout length (`originKeyTimeoutMS`) is not modelled. A timer fires when `OriginKeyTimeoutFires` is called for its handle.
- The initial component state, set by the secured-fields provider component, is not part of this model. The constructor takes it as a parameter.
- The field-name constants come from the secured-fields configuration constants, which are not part of this model. The model uses their string values `encryptedCardNumber`, `encryptedSecurityCode`, `encryptedExpiryDate`, `encryptedExpiryMonth` and `encryptedExpiryYear`.
- Payloads that are forwarded unchanged (`onLoad`, `onConfigSuccess`) are opaque strings. The other events keep only the properties the handlers read.
- In the secured-fields `errors` object, an entry that holds null or undefined is the same as a missing key.
- `SortErrorsForPanel`: an error object's `errorMessage` is always a string. An absent `errorMessage` passed to `i18n.get` is not modelled.
- `FieldValidUpdate`, `HandleOnFieldValid`: the unsupported-card invariant is proved kept only when the provider pairs the card-number field type with the card-number encrypted name. A different pairing is not modelled.
- The bin-lookup extension reads `dualBrandSelectElements` and `issuingCountryCode` from the last committed state. The hook closures of the source may still hold the values of an earlier render.
- `handleDualBrandSelection` reading the brand from a DOM event's `data-value` or `alt` attribute: only the string input is modelled.
- A bin-lookup response key that holds null or undefined counts only towards the empty-object test, through `otherKeys`.
- `ToLower`: only ASCII letters are lower-cased. Unicode case mapping is not modelled.
- `GetLayout`: the address schema has the shape of the library's address schema type: field names, and rows of `[fieldName, width]` pairs. Deeper nesting, which `flat(2)` would leave in the layout, is not modelled.
- `createCardVariantSwitcher`, `getImageUrl`, the secured-fields `getCardImageUrl`, `i18n.get`, `existy` and the layout constants are parameters or written out. Their own behaviour is not part of this model.
- `extractPropsForCardFields` and `extractPropsForSFP` only copy properties, so there is nothing to state about them.
- The Boleto input, the card-number field rendering, the Amazon Pay order button (a network call and a redirect), the playground pages and the core configuration constants are rendering, network or demo code outside this model.
