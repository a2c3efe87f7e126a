# Leukemia detector front end: form validation and upload workflow

This project models the two parts of the leukemia-detector single-page application that have precise behaviour:

- **`useFormValidation`**, the generic form-validation hook. It keeps three maps keyed by field name: `values`, `errors` and `touched`.
  - A field's error is the message of the first rule, in declared order, that complains.
  - `handleChange`, `handleBlur` and `validateForm` are transitions on the three maps.
- **The upload page's state.** It covers:
  - a selection of at most six images, with one preview per image;
  - removal of one image;
  - the submit handler, with its two ordered checks and its success or failure outcome;
  - the three threshold classifiers used to display a result.

Modules:

- `Wrappers`: the `Option` type. It stands for JavaScript's `null`/`undefined`.
- `FormValidation`: the hook.
  - The pure functions `Change`, `Blur` and `Validate` on a `FormState` define what each handler does.
  - The class `Form` holds the three maps as fields. Its methods update them in place, and each method is proved to agree with its transition function.
  - `ValidateForm` keeps the source's loop and its mutable `isValid` flag. The loop is proved against `FormErrors`.
  - The contracts of `Change` and `Blur` state what each handler changes and what it keeps. Lemmas cover rule priority, blur idempotence and the `validateForm` "iff". Lemmas over event sequences (`Run`) state that there is no error before a blur, that touched flags stay set, and, for rules that do not read the value map, that errors stay current.
- `ExampleForm`: the sign-in form's rule set (email and password), plus its documented scenarios.
- `Upload`: the class `UploadPage` with the component's state fields, and the pure classifiers.

Modelling choices:

- Each handler is one atomic transition on the state it captured when it started. This is the closure semantics of the hook. It is why `handleChange` validates the new value against the value map from before the change. `StaleValueMapOnChange` shows that this matters for a rule that reads the map.
- A rule receives `Option<string>`. `None` is the `undefined` that `values[name]` gives for a field without an entry.
- A rule's result is read by JavaScript truthiness, so an empty message counts as no complaint (`Verdict`).
- An error read from the error map is "" when the entry is missing (`ErrorOf`).
- Files and previews are type parameters of `UploadPage`, so they are opaque tokens.
- The browser's `URL.createObjectURL`, the prediction service `makePredictions` and the model-list fetch are parameters of the handlers that use them.
- The email-format regular expression is the parameter `isEmail` of the example rules. The upper-case, lower-case and digit tests are defined over characters (`HasCharIn`). A regular-expression test of `undefined` sees the string "undefined" (`JsString`).
- The password length rule counts UTF-16 code units, as JavaScript's `length` does (`Utf16Length`): a character outside the Basic Multilingual Plane counts twice.
- Confidence is a `real`, and only comparisons are made on it.

Two behaviours of the code worth stating outright:

- `handleChange` validates the new value against the value map from before the change (`form.jsx:95-97`).
- `validateForm` leaves `touched` unchanged (`form.jsx:109-123`), and so does `Validate`.

The three classifiers use three scales, and the model keeps them as written:

- `InterpretResult` compares against 80 and 50, a percentage scale.
- `ResultColor` compares against 0.8 and 0.5, a zero-to-one scale.
- `DetectionLabel` compares against 10.

`ClassifierScalesDisagree` shows the effect: any confidence in (0.8, 50] gets a red card and "Low Risk" at once. `DetectedYetLowRisk` adds that any confidence in (10, 50] is also headed "Leukemia Detected".

## Model

| member | source | states |
|---|---|---|
| `FormValidation.FirstError` | leukemia-detector-frontend/src/ui-improvements/form.jsx:86-90 | The result is "" iff every rule passes. Otherwise it is the message of some rule k, and every rule before k passes. |
| `FormValidation.ValidateField` | leukemia-detector-frontend/src/ui-improvements/form.jsx:82-91 | A field without rules gets "". A field with rules gets "" exactly when all of its rules pass. |
| `FormValidation.FirstFailingRuleWins` | leukemia-detector-frontend/src/ui-improvements/form.jsx:86-90 | Rule priority: when rule k is the first to complain, the field's error is rule k's message. Later rules are never reported. |
| `FormValidation.ErrorsForInsert` | leukemia-detector-frontend/src/ui-improvements/form.jsx:113-119 | One `forEach` step adds the field's error exactly when the field has rules and fails. Otherwise the map is unchanged. |
| `FormValidation.FormErrorsEntry` | leukemia-detector-frontend/src/ui-improvements/form.jsx:113-119 | A field is in the rebuilt error map iff it has rules and its validation is non-empty. Its entry is that message. |
| `FormValidation.FormErrors` | leukemia-detector-frontend/src/ui-improvements/form.jsx:110-119 | The error map `validateForm` builds has only rule-bearing fields as keys, and every entry is a non-empty message. |
| `FormValidation.EmptyFieldRequired` | leukemia-detector-frontend/src/ui-improvements/form.jsx:113-119 | A field whose value is "" and whose first rule complains about "" gets that first rule's message in the rebuilt error map. |
| `FormValidation.Change` | leukemia-detector-frontend/src/ui-improvements/form.jsx:93-100 | `handleChange` sets `values[name]` to the new value, keeps every other value, and leaves `touched` unchanged. On an untouched field the errors are unchanged. On a touched field only `errors[name]` changes: it becomes the validation of the new value against the pre-change map, possibly "". Every other key of `errors` is kept, present or absent alike. |
| `FormValidation.Blur` | leukemia-detector-frontend/src/ui-improvements/form.jsx:102-107 | `handleBlur` marks the field touched and keeps the other flags. It sets the field's error from its current value. Every other key of `errors` and of `touched` is kept, present or absent alike. Values are unchanged. |
| `FormValidation.BlurIdempotent` | leukemia-detector-frontend/src/ui-improvements/form.jsx:102-107 | Blurring a field twice with nothing in between gives the same state as blurring it once. |
| `FormValidation.Validate` | leukemia-detector-frontend/src/ui-improvements/form.jsx:109-123 | After `validateForm` a field has an error entry iff it has rules and one of them fails. Values and touched are unchanged. |
| `FormValidation.ValidateFormSpec` | leukemia-detector-frontend/src/ui-improvements/form.jsx:109-123 | Each entry of the new error map is that field's first failing message, never "". The result is true iff every field with rules passes. |
| `FormValidation.TouchedStaysTouched` | leukemia-detector-frontend/src/ui-improvements/form.jsx:104 | A touched flag is never reset by any later change, blur or submit. |
| `FormValidation.NoErrorWithoutBlur` | leukemia-detector-frontend/src/ui-improvements/form.jsx:93-123 | A field that is neither blurred nor submitted keeps its error entry as it was, whatever changes occur. It also stays untouched. |
| `FormValidation.FreshFieldHasNoError` | leukemia-detector-frontend/src/ui-improvements/form.jsx:77-123 | From a freshly mounted form, a field never blurred and never submitted has no error entry. |
| `FormValidation.FirstErrorIgnoresValueMap` | leukemia-detector-frontend/src/ui-improvements/form.jsx:86-90 | Rules that never read the value map give the same error under any value map. |
| `FormValidation.StepKeepsErrorsCurrent` | leukemia-detector-frontend/src/ui-improvements/form.jsx:93-123 | Suppose the rules ignore the value map. Then every change, blur or submit keeps this true: each touched field's error is its rules' verdict on its current value. |
| `FormValidation.RunKeepsErrorsCurrent` | leukemia-detector-frontend/src/ui-improvements/form.jsx:93-123 | Under the same condition, this stays true after any sequence of interactions. |
| `FormValidation.StaleValueMapOnChange` | leukemia-detector-frontend/src/ui-improvements/form.jsx:95-97 | A rule that reads its own field from the value map keeps reporting the old value's error after a change. |
| `FormValidation.Form.constructor` | leukemia-detector-frontend/src/ui-improvements/form.jsx:77-80 | The hook starts with the given values, no errors and nothing touched. |
| `FormValidation.Form.HandleChange` | leukemia-detector-frontend/src/ui-improvements/form.jsx:93-100 | The new state is `Change` of the old state. |
| `FormValidation.Form.HandleBlur` | leukemia-detector-frontend/src/ui-improvements/form.jsx:102-107 | The new state is `Blur` of the old state. |
| `FormValidation.Form.ValidateForm` | leukemia-detector-frontend/src/ui-improvements/form.jsx:109-123 | The loop rebuilds the error map as `FormErrors` of the values. The flag it returns is true iff that map is empty. |
| `ExampleForm.Utf16Length` | leukemia-detector-frontend/src/ui-improvements/form.jsx:146 | The length JavaScript reports: at least the number of characters and at most twice it, and exactly it when every character is in the Basic Multilingual Plane. |
| `ExampleForm.EmailRules` | leukemia-detector-frontend/src/ui-improvements/form.jsx:140-143 | The email rules ignore the value map. A missing or empty email gets "Email is required". Otherwise a value the format test rejects gets "Invalid email format", and any other value gets "". |
| `ExampleForm.PasswordRules` | leukemia-detector-frontend/src/ui-improvements/form.jsx:144-154 | Five rules that ignore the value map. Which message each input gets is stated by `PasswordRulesError`. |
| `ExampleForm.PasswordRulesError` | leukemia-detector-frontend/src/ui-improvements/form.jsx:144-154 | For every input the password's error follows the rule order: "Password is required" for a missing or empty value, else the length message below 8 UTF-16 units (so "abc" gets the length message), else the upper-case, then the lower-case, then the digit message, else "". |
| `ExampleForm.PasswordAcceptedIffStrong` | leukemia-detector-frontend/src/ui-improvements/form.jsx:144-154 | The password rules report nothing iff the password is present, at least 8 UTF-16 units long, and has an upper-case letter, a lower-case letter and a digit. |
| `ExampleForm.ExampleRules` | leukemia-detector-frontend/src/ui-improvements/form.jsx:139-155 | The example form has rules for exactly "email" and "password", and no rule reads the value map, so the errors-current invariant applies to it. |
| `ExampleForm.AstralPasswordLength` | leukemia-detector-frontend/src/ui-improvements/form.jsx:146-149 | Four characters outside the Basic Multilingual Plane count as 8 units, so the length rule passes and the upper-case message is reported. |
| `ExampleForm.EmptyPasswordIsRequired` | leukemia-detector-frontend/src/ui-improvements/form.jsx:144-146 | An empty or missing password reports "Password is required", not the length message. |
| `ExampleForm.LowercaseEightReportsUppercase` | leukemia-detector-frontend/src/ui-improvements/form.jsx:144-149 | "abcdefgh" reports "Password must contain at least one uppercase letter". |
| `ExampleForm.SubmitInitialForm` | leukemia-detector-frontend/src/ui-improvements/form.jsx:139-158 | Validating the form with initial values `{email: "", password: ""}` returns false. The errors are "Email is required" and "Password is required". |
| `ExampleForm.BadEmailShownOnlyAfterBlur` | leukemia-detector-frontend/src/ui-improvements/form.jsx:140-143 | Typing "bad" into the untouched email field sets no error. Blurring it then reports "Invalid email format". |
| `ExampleForm.TouchedPasswordChange` | leukemia-detector-frontend/src/ui-improvements/form.jsx:144-149 | On a touched password field, changing the value to "abcdefgh" reports the upper-case message at once. |
| `Upload.Without` | leukemia-detector-frontend/src/components/UploadPage.jsx:57-58 | The index filter is one element shorter when the index is in range and the same length otherwise, and keeps only elements of the input. |
| `Upload.WithoutRemovesIndex` | leukemia-detector-frontend/src/components/UploadPage.jsx:56-58 | The index filter removes exactly the element at `index` and keeps the rest in order. An out-of-range index changes nothing. |
| `Upload.SubmitBlocker` | leukemia-detector-frontend/src/components/UploadPage.jsx:68-77 | A submission is blocked iff no model is chosen or no image is selected. A missing model is reported before missing images. |
| `Upload.InterpretResult` | leukemia-detector-frontend/src/components/UploadPage.jsx:101-105 | "High Risk" iff confidence > 80. "Moderate Risk" iff 50 < confidence <= 80. "Low Risk" iff confidence <= 50. |
| `Upload.InterpretResultMonotone` | leukemia-detector-frontend/src/components/UploadPage.jsx:101-105 | A higher confidence never gives a lower risk label. |
| `Upload.ResultColor` | leukemia-detector-frontend/src/components/UploadPage.jsx:107-113 | Red iff confidence > 0.8. Yellow iff 0.5 < confidence <= 0.8. Green otherwise. |
| `Upload.DetectionLabel` | leukemia-detector-frontend/src/components/UploadPage.jsx:247-255 | "Leukemia Detected" iff confidence > 10, "No Leukemia" otherwise. |
| `Upload.ClassifierScalesDisagree` | leukemia-detector-frontend/src/components/UploadPage.jsx:101-113 | For confidence in (0.8, 50] the card is red and the risk is "Low Risk" at once. |
| `Upload.DetectedYetLowRisk` | leukemia-detector-frontend/src/components/UploadPage.jsx:101-113 | For confidence in (10, 50] the headline is "Leukemia Detected" while the risk is "Low Risk" and the card is red. |
| `Upload.UploadPage.constructor` | leukemia-detector-frontend/src/components/UploadPage.jsx:15-21 | The page starts with no model, no models, no files or previews, no predictions, not loading and no error. |
| `Upload.UploadPage.LoadModels` | leukemia-detector-frontend/src/components/UploadPage.jsx:24-35 | A successful fetch stores the model list. A failed fetch sets "Failed to load detection models". |
| `Upload.UploadPage.SelectModel` | leukemia-detector-frontend/src/components/UploadPage.jsx:140-144 | Choosing from the drop-down sets the selected model. |
| `Upload.UploadPage.HandleFileChange` | leukemia-detector-frontend/src/components/UploadPage.jsx:38-53 | More than 6 files sets "Maximum 6 images allowed" and leaves files and previews unchanged. Otherwise the selection is replaced by the new files, with one preview per file, and the error is cleared. Either way `\|files\| == \|previews\| <= 6` is kept. |
| `Upload.UploadPage.RemoveImage` | leukemia-detector-frontend/src/components/UploadPage.jsx:56-62 | Removes exactly position `index` from both files and previews, keeping the order. An out-of-range index changes nothing. The invariant is kept. |
| `Upload.UploadPage.HandleSubmit` | leukemia-detector-frontend/src/components/UploadPage.jsx:65-98 | A blocked submission sets the blocker's message and sends nothing. Otherwise it sends the model and every selected image in order, and loading ends false. Success stores the results and clears the error. Failure sets "Prediction failed. Please try again." and clears the predictions. |

## Left out

- Network calls are not modelled. `getModels` and `makePredictions` live in `apiService`, which is not part of this model. Their results are parameters: the fetched list or a failure, and a function from request to outcome. Building `FormData` is modelled only as the request's model and image list.
- Preview creation: `URL.createObjectURL` is a browser API. It is a function parameter here, so the model does not capture that each call returns a fresh URL.
- React scheduling is not modelled. Batched, asynchronous state setters are replaced by atomic transitions. `isLoading` being true while the prediction call is awaited is not observable in the model. Neither is the disabled button that prevents a second submission meanwhile.
- Direct mutators: the hook also exposes `setValues`, `setErrors` and `setTouched` as escape hatches. They are plain assignments and are not part of the validation contract, so they are not modelled.
- `Form.ValidateForm`: the model's loop picks the fields in an order it does not fix, where `Object.keys` has a fixed one. The result does not depend on the order.
- `ExampleForm.PasswordRules`: in the source, `v.length` on an `undefined` value throws. That case is never reached, because the "required" rule fires first on `undefined`. The model's length rule reports nothing for it.
- The email format regular expression is not defined. It is the abstract parameter `isEmail`.
- Field values are strings. Initial values of other JavaScript types are not modelled.
- The example form's submit handler only logs to the console, so it is left out.
- Console logging on the upload page is not modelled: `console.error` in the model-list fetch and `console.log` in the submit handler's failure branch.
- `toFixed(2)` formatting and floating-point rounding are not modelled. Confidence is an exact `real`.
- `ResultColor` returns a colour tone; the CSS class strings it chooses between are presentation.
- Left out as presentation or browser plumbing: `FormInput`, all JSX, the theme toggle and its local-storage flag, routing, the navigation bar, the footer, the login, account-creation and support pages, and the skeleton loaders.
