# Sale wizard and callback reasons — a Dafny model

This project models the two pieces of logic in a real-estate front end that are
rules rather than rendering:

- **The property-sale wizard form** (`SellForm.tsx`). When the user picks a
  condominium, `handleChangeCondominium` writes its address, city and tower into
  the form one `setValue` at a time. It then either keeps the tower fields it
  wrote or resets them and clears every validation error, and it may advance the
  wizard from step one. Beside it sit the progress counter text ("3 of 6", or
  "- of 6" for a step outside the order), the form's default values, the choice
  of the first invalid input after a failed validation (focused only when it is
  an editable text input, scrolled to whenever it exists) and the rule for which
  steps show the Back/Next bar.
- **The callback-request hook** (`useCallbackModal.ts`). The reason sent with a
  callback request is a given default reason or else is derived from the
  current location with its query string stripped. The offers route with the
  offer-questions view gives "questions", the five table routes give their
  listed reasons and every other path gives "commonQuestion". A successful
  request marks the active sale as accepted in a per-sale map, and `isAccepted`
  reads that map.

Files:

- `option.dfy` (module `Optional`): `Option`, and JavaScript truthiness for
  optional strings and numbers.
- `sell_form.dfy` (module `SellForm`): the wizard. The form library's state is
  a field-value map plus the set of fields in error. `SellFormController` is a
  class holding that state and a count of the caller's `onNext` calls. It has
  one method per primitive the source calls (`SetValue`, `ClearErrors`,
  `OnNext`), and `HandleChangeCondominium` is proved against the specification
  function `AfterCondo`. `AfterCondo` applies the ordered list of `setValue`
  calls `CondoWrites` and then wipes the errors when there are no towers. The
  lemmas beside it state what that list does to each field.
- `callback_modal.dfy` (module `CallbackModal`): path stripping, the reason
  table, reason precedence, the accepted map and `isAccepted`. The class
  `CallbackRequests` holds the map, which the success handler updates.

Collaborators whose code is not part of this model are parameters:

- the step order `STEPS_ORDER` is a `seq<Step>`;
- the step's validation schema is a `FieldCheck`, which answers whether one
  field passes given all values;
- the routes constants form a `Routes` record of five strings, assumed pairwise
  distinct where a lemma needs it;
- `getIsOfferQuestionsView(sale)` is a boolean;
- the active sale is an `Option<Sale>`;
- the router's `asPath` is a string.

## Model

| member | source | states |
|---|---|---|
| SellForm.ShowsNavBar | SellForm.tsx:181-183 | the Back/Next bar is shown on every step except one, two and six (a definition; `NavBarIffPlainFields` states what it means) |
| SellForm.NavBarIffPlainFields | SellForm.tsx:151-183 | the Back/Next bar shows exactly on steps three to five, the steps whose view is a plain field group |
| SellForm.IndexOf | SellForm.tsx:128 | `indexOf`: -1 exactly when the step is absent, otherwise a position holding the step with no earlier occurrence |
| SellForm.DecimalString | SellForm.tsx:128-130 | a number prints as a non-empty run of digits without a leading zero |
| SellForm.DecimalRoundTrip | SellForm.tsx:128-130 | reading the printed digits back gives the number |
| SellForm.ProgressLabel | SellForm.tsx:128 | the position label: the 1-based position of the step, or "-" when `indexOf` gives -1 (a definition; `ProgressLabelDash` and `ProgressTextPresent` state its properties) |
| SellForm.ProgressText | SellForm.tsx:128-130 | the counter text "label of N" with N the length of the order (a definition; its properties are in the two lemmas below) |
| SellForm.ProgressLabelDash | SellForm.tsx:128 | the label is "-" exactly when the step is not in the order |
| SellForm.ProgressTextPresent | SellForm.tsx:128-130 | a step first found at position i reads "(i+1) of N", and its label reads back as i+1 |
| SellForm.ProgressTextMissing | SellForm.tsx:128-130 | a step missing from the order reads "- of N" |
| SellForm.DefaultValues | SellForm.tsx:52 | the default values hold every initial key plus `apartmentUnitNumber`; initial values win, and `apartmentUnitNumber` is "" only when not given |
| SellForm.AfterSetValue | SellForm.tsx:62-91 | one `setValue` writes the field; with validation requested that field's error follows the schema; no other field's error moves |
| SellForm.ApplyValues | SellForm.tsx:62-91 | after a sequence of `setValue` calls the values are the old ones overridden by the last write to each field |
| SellForm.ApplyKeepsErrors | SellForm.tsx:62-91 | a field whose validation no call requested keeps its error state |
| SellForm.FindTower | SellForm.tsx:75 | `find` returns the first tower whose id equals the selected tower id, and none when no tower matches |
| SellForm.ChosenTower | SellForm.tsx:75 | the chosen tower is one of the towers: the first tower whose id matches the selected id, and the first tower when none matches |
| SellForm.CondoWrites | SellForm.tsx:59-94 | the ordered `setValue` calls of `handleChangeCondominium`: address, city, then the chosen tower's fields or the four resets (a definition; the lemmas below state what the calls do to each field) |
| SellForm.AfterCondo | SellForm.tsx:59-94 | the form state after a condominium: the calls applied in order, then an empty error set when there are no towers (the specification of `HandleChangeCondominium`) |
| SellForm.CondoValues | SellForm.tsx:59-94 | after a condominium the values are the old ones overridden by the last write to each cascade field |
| SellForm.CondoSetsAddress | SellForm.tsx:62-64 | the address becomes the condo's address or "", and is validated exactly when the address is non-empty |
| SellForm.CondoSetsCity | SellForm.tsx:66-72 | the city becomes {city, citySlug} when both are non-empty, otherwise null, and is validated exactly in the first case |
| SellForm.CondoWithTowers | SellForm.tsx:74-86 | with towers, name and id come from the chosen tower; floors and year take the tower's value when truthy and otherwise keep the previous value, present or not |
| SellForm.CondoWithTowersKeepsErrors | SellForm.tsx:74-86 | with towers, only the fields whose validation the cascade requested can change error state |
| SellForm.CondoWithoutTowers | SellForm.tsx:87-94 | without towers, name becomes "", floors and year null, tower id undefined, and the error set is empty whatever it held |
| SellForm.CondoLeavesOtherFields | SellForm.tsx:59-97 | no field outside the six cascade fields changes |
| SellForm.SellFormController.constructor | SellForm.tsx:49-54 | the form starts with the merged default values, no errors and no `onNext` call |
| SellForm.SellFormController.SetValue | SellForm.tsx:62-91 | the form state becomes `AfterSetValue` of the old state |
| SellForm.SellFormController.ClearErrors | SellForm.tsx:93 | the error set becomes empty and the values are unchanged |
| SellForm.SellFormController.OnNext | SellForm.tsx:96 | one more `onNext` call, form state unchanged |
| SellForm.SellFormController.SetAddressAndCity | SellForm.tsx:62-72 | the address write then the city write, in that order |
| SellForm.SellFormController.SetTowerFields | SellForm.tsx:77-86 | name, id, then floors and year only when truthy, in that order |
| SellForm.SellFormController.SetTowerFigures | SellForm.tsx:79-86 | floors then year, each written only when the tower's value is truthy, in that order |
| SellForm.SellFormController.SetTotalFloors | SellForm.tsx:79-82 | the floor count is written, with validation, only when the tower's value is truthy; otherwise nothing changes |
| SellForm.SellFormController.SetYearBuilt | SellForm.tsx:83-86 | the year is written, with validation, only when the tower's value is truthy; otherwise nothing changes |
| SellForm.SellFormController.ResetTowerFields | SellForm.tsx:88-91 | the four reset writes, in order |
| SellForm.AutoAdvances | SellForm.tsx:96 | the wizard advances on its own exactly when the condominium's name is non-empty and the step is one (a definition, used by `HandleChangeCondominium`) |
| SellForm.SellFormController.HandleChangeCondominium | SellForm.tsx:59-97 | the new form state is `AfterCondo` of the old one, and `onNext` is called once exactly when the condo has a non-empty name on step one, otherwise not at all |
| SellForm.ErrorKey | SellForm.tsx:106 | the key an input's error is read under: its name, or "null" when it has none (a definition, used by `FirstInvalid`) |
| SellForm.FirstInvalid | SellForm.tsx:104-107 | the selected input is the first in document order whose name (or "null" when it has none) has an error; none when no input matches |
| SellForm.OnValidationError | SellForm.tsx:103-114 | the selected input is scrolled to whenever it exists, and focused exactly when it is not read-only and its type is "text" |
| SellForm.ValidationErrorTargetsFirstInvalid | SellForm.tsx:103-114 | when input i is the first with an error, it is scrolled to and is focused exactly when editable text |
| SellForm.ValidationErrorWithoutMatch | SellForm.tsx:109-113 | nothing is focused or scrolled exactly when no input's name has an error |
| CallbackModal.StripQuery | useCallbackModal.ts:28 | the location is a prefix of `asPath` with no '?' that ends at the first '?' or at the end |
| CallbackModal.StripQueryUnique | useCallbackModal.ts:28 | any prefix with those three properties is the stripped location |
| CallbackModal.StripQueryOfQuery | useCallbackModal.ts:28 | a path followed by "?" and any query strips to the path; a path without '?' is unchanged |
| CallbackModal.StripQueryIdempotent | useCallbackModal.ts:28 | stripping twice is stripping once |
| CallbackModal.ReasonTable | useCallbackModal.ts:63-69 | the table's keys are exactly the five routes, and no entry is "questions" or "commonQuestion" |
| CallbackModal.ReasonByLocation | useCallbackModal.ts:71-79 | "questions" comes only from the offers route with the offer-questions view, and any reason other than "commonQuestion" comes from a table route |
| CallbackModal.ReasonForTableRoutes | useCallbackModal.ts:63-79 | with distinct routes each table route yields its listed reason, except offers with the offer-questions view, which yields "questions" |
| CallbackModal.CommonQuestionIffUnlisted | useCallbackModal.ts:78 | the reason is "commonQuestion" exactly for paths outside the table |
| CallbackModal.QuestionsIffOfferQuestionsView | useCallbackModal.ts:75-76 | the reason is "questions" exactly on the offers route with the offer-questions view |
| CallbackModal.CallbackReason | useCallbackModal.ts:28-30 | a given default reason is the reason whatever `asPath` is; without one, a path with no '?' gives the location's reason |
| CallbackModal.CallbackReasonPrecedence | useCallbackModal.ts:28-30 | a given default reason is always the reason; otherwise the reason is the location's, whatever the query string |
| CallbackModal.MarkAccepted | useCallbackModal.ts:41 | the success update adds the sale's id with `true` and keeps every other key and value |
| CallbackModal.IsAccepted | useCallbackModal.ts:59 | `isAccepted` for the active sale, the loading flag and the accepted map (a definition; the three lemmas below state its properties) |
| CallbackModal.AcceptedAfterSuccess | useCallbackModal.ts:40-59 | after a success a sale with a non-zero id reads as accepted exactly when no request is loading |
| CallbackModal.OtherSalesUnaffected | useCallbackModal.ts:40-59 | a success for one id does not change whether any other sale reads as accepted |
| CallbackModal.NoSaleNeverAccepted | useCallbackModal.ts:59 | with no sale, or a sale whose id is 0, nothing reads as accepted, even after a success for that id |
| CallbackModal.CallbackRequests.constructor | useCallbackModal.ts:26 | the accepted map starts empty |
| CallbackModal.CallbackRequests.OnSuccess | useCallbackModal.ts:40-42 | the accepted map becomes `MarkAccepted` of the old map, and a sale with that non-zero id then reads as accepted while nothing loads |

## Left out

- The form library's `handleSubmit` and its resolver are not modelled: which
  of `onNext` and `onValidationError` a submission reaches, and the Back button.
  The validation schema is not part of this model either; it appears only as
  the `FieldCheck` parameter that `setValue` consults when validation is requested.
- SellForm.AfterSetValue: of what the form library's `setValue` does, only the
  value and that field's error are modelled. Dirty and touched flags and the
  notification of watchers are not.
- The `watch` subscription that forwards every change to the partial-save
  service is left out: it is asynchronous, fire-and-forget and tied to mounting.
- The network is a foreign call. This covers `requestCallback`, the mutation's
  `isLoading` (a parameter here), `trackOffer` analytics, the modal's open
  state, the router (`asPath` is a parameter) and fetching the active deal (the
  sale is a parameter).
- CallbackModal.CallbackRequests.OnSuccess: the source reads `sale!.id` at the
  time of success; the model takes that id as its argument.
- The DOM effects `focus` and `scrollIntoView` are recorded only as positions
  among the inputs. The query of the form's inputs is the `inputs` argument, in
  document order.
- JSX rendering, the responsive `Wrapper`, the `Box` component, its stories and
  the style sheets have no logic to model.
- Numbers are unbounded integers, so a `NaN` floor count or year is not
  represented. Tower ids are integers.
- CallbackModal.ReasonByLocation: a path equal to an inherited object property
  name, such as "toString", would read a function from the JavaScript table.
  The model reads only the five listed keys. Router paths begin with "/", so
  such a path does not occur.
- SellForm.OnValidationError: a selected input that is read-only or not a
  text input is not focused, but it is still scrolled into view, as the code
  at SellForm.tsx:109-113 does.
- SellForm.AfterSetValue: validation requested by `setValue` is modelled as
  finishing inside the call. The form library runs the resolver
  asynchronously, so its verdict can arrive after later calls.
- SellForm.CondoWithoutTowers: the empty error set holds when the pending
  validations of the address and city finish before `clearErrors()`. With the
  library's asynchronous resolver their verdicts can arrive later and add
  errors back; the model does not capture that ordering.
