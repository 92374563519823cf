# Sanafi mobile wallet — onboarding, auth gate, money-movement modals and rewards

This project models the front-end logic of the Sanafi mobile wallet in
Dafny. It covers:

- the `useAuth` hook's three persisted flags, with their `auth_state`
  storage entry and the credential check of `login`;
- the root redirect that sends a user to sign-in, onboarding, KYC or the
  tabs;
- the sign-in / sign-up screen's checks;
- the four-step onboarding carousel;
- the four-step KYC wizard, with its per-step validation and skip path;
- the add-funds, cash-out and transfer modals, which are step machines with
  amount gates and a reset on close;
- the QR scanner's one-shot scan latch;
- the rewards screen's tab list, category filter and claim check.

Each stateful component becomes a Dafny class. Its `useState` values
become fields and its handlers become methods with `modifies` clauses, and
every method states the whole new state. Calls to the owner's callbacks
(`onAddFunds`, `onCashOut`, `onScan`, `onClose`) are appended to a ghost
`events` log. The decisions a handler makes are separate functions, such
as `AmountCheck`, `ValidateStep`, `Precheck`, `FilteredRewards` and
`ClaimReward`. Each handler's `ensures` ties it to its function, and lemmas
prove what the functions mean. The start-up screen (app/index.tsx) holds no
state and has no handler. Its redirect effect is the function
`InitialRoute`, which maps the navigator-ready bit and the three flags to
the route.

Some conventions run through the whole model:

- **Numbers.** `parseFloat` is a parameter `parse: string -> Parsed`, where
  `Parsed` is either a real number or `NaN`. A NaN fails every comparison,
  as in JavaScript, so text that parses to NaN passes the amount gates; the
  model keeps that behaviour. `Number.prototype.toString` is a parameter
  `show: real -> string`.
- **Storage.** `localStorage` is a `Storage` object holding a map from key
  to stored value. A stored value is either parsed JSON or text that does
  not parse.
- **The save effect.** The effect in `useAuth` that saves on change is
  modelled as "write the encoded flags whenever they differ from their
  value before the handler". On mount it also runs once unconditionally.
  This means a `logout` from any state with a flag set removes the key
  and the save effect then writes the signed-out flags back. Only a `logout` that
  changes nothing leaves the key absent.
- **Sessions.** Every screen holds its own `Session`, just as each screen
  calls `useAuth()` and gets its own hook instance.

## Model

| member | source | states |
|---|---|---|
| Common.FirstWhere | components/AddFundsModal.tsx:87 | `Array.find`: the index returned is the first element satisfying the predicate; None exactly when no element does |
| Common.FindOrFirst | components/AddFundsModal.tsx:87 | `find(p) \|\| s[0]`: the result is the first element satisfying the predicate, and the head of the list when none does |
| AuthState.Encode | hooks/useAuth.ts:38-47 | the saved object has exactly the three keys `isAuthenticated`, `hasCompletedOnboarding`, `hasCompletedKYC` |
| AuthState.Decode | hooks/useAuth.ts:21-35 | loading changes nothing exactly when the key is missing, its text does not parse, or it holds `null`; any other non-object value signs out |
| AuthState.DecodeEncode | hooks/useAuth.ts:21-47 | loading what the save effect wrote gives back the same three flags |
| AuthState.DecodeField | hooks/useAuth.ts:28-30 | a field that is missing or falsy loads as false, and a truthy field loads as true (`x \|\| false`), with JavaScript truthiness of JSON values given by `Truthy` and the field read by `FieldOrFalse` |
| AuthState.Storage.Get | hooks/useAuth.ts:24 | `getItem` returns a value exactly when the key is present, and returns that key's value |
| AuthState.Session.constructor | hooks/useAuth.ts:16-18 | all three flags start false |
| AuthState.Session.SaveIfChanged | hooks/useAuth.ts:38-47 | the flags are written under `auth_state` exactly when they changed; otherwise storage is untouched |
| AuthState.Session.Mount | hooks/useAuth.ts:21-47 | after mount the flags are the loaded ones, or unchanged when nothing loads, and storage holds their encoding |
| AuthState.Utf16Length | hooks/useAuth.ts:54 | `password.length` counts UTF-16 code units: between one and two per character |
| AuthState.AstralPasswordLength | hooks/useAuth.ts:54 | three emoji make a 6-unit password that passes the gate; five plain letters do not |
| AuthState.Session.Login | hooks/useAuth.ts:49-59 | succeeds exactly when `CredentialsAccepted` holds: a non-empty email and a password of at least 6 UTF-16 code units; success sets only `isAuthenticated`; failure changes nothing |
| AuthState.Session.Logout | hooks/useAuth.ts:61-68 | all flags become false; the key is removed if it was already signed out, else the signed-out flags are written back |
| AuthState.Session.CompleteOnboarding | hooks/useAuth.ts:70-72 | sets only `hasCompletedOnboarding` and saves on change |
| AuthState.Session.CompleteKYC | hooks/useAuth.ts:74-76 | sets only `hasCompletedKYC` and saves on change |
| AuthState.LogoutThenLoad | hooks/useAuth.ts:61-68 | after a logout, a later mount loads signed-out flags or nothing at all, so it never restores a session |
| AuthState.CompleteOnboardingTwice | hooks/useAuth.ts:70-72 | completing onboarding twice gives the same flags as completing it once |
| RootRouting.InitialRoute | app/index.tsx:13-30 | no redirect until navigation is ready; then auth, onboarding, KYC or tabs, each exactly under its own flag condition |
| RootRouting.FinishedPrefix | app/index.tsx:22-30 | the count of leading finished stages: every stage before it is done and the stage at it is not |
| RootRouting.RouteIsFirstUnfinishedStage | app/index.tsx:22-30 | the redirect goes to the first unfinished stage of the auth → onboarding → KYC → tabs sequence |
| RootRouting.RouteMonotone | app/index.tsx:22-30 | finishing more stages never moves the redirect to an earlier stage |
| SignIn.Precheck | app/auth/index.tsx:33-41 | "fill in all fields" exactly when email or password is empty; "passwords do not match" exactly in sign-up mode with a differing confirmation; otherwise passes |
| SignIn.SignInIgnoresConfirmation | app/auth/index.tsx:38-41 | in sign-in mode the confirmation field has no effect |
| SignIn.PrecheckWeakerThanLogin | app/auth/index.tsx:33-46 | credentials that `login` accepts always pass the screen's own checks (for a matching confirmation in sign-up mode) |
| SignIn.AfterLogin | app/auth/index.tsx:45-54 | to onboarding exactly on success, "Invalid credentials" exactly on a false result, "Something went wrong" exactly on a throw |
| SignIn.AuthScreen.constructor | app/auth/index.tsx:21-27 | starts in sign-in mode with empty fields and not loading |
| SignIn.AuthScreen.SetMode | app/auth/index.tsx:91-100 | the mode tabs change only the mode |
| SignIn.AuthScreen.SetFields | app/auth/index.tsx:118-159 | the inputs change only the three fields |
| SignIn.AuthScreen.BeginAuth | app/auth/index.tsx:32-43 | the result is the precheck; loading starts only when it passes |
| SignIn.AuthScreen.EndAuth | app/auth/index.tsx:44-57 | the outcome is `AfterLogin` of the result and loading always ends |
| SignIn.AuthScreen.HandleAuth | app/auth/index.tsx:32-57 | a failed precheck alerts without calling `login` and leaves the session and its store alone; otherwise the outcome follows `login`'s credential check and the store holds what the save effect wrote |
| Onboarding.OnboardingScreen.constructor | app/onboarding/index.tsx:80 | starts on step 0 |
| Onboarding.OnboardingScreen.HandleNext | app/onboarding/index.tsx:85-96 | advances one step, and on the last step completes onboarding, saves the changed flags and goes to KYC |
| Onboarding.OnboardingScreen.HandlePrevious | app/onboarding/index.tsx:98-107 | steps back one step, never below 0 |
| Onboarding.OnboardingScreen.HandleComplete | app/onboarding/index.tsx:109-112 | sets `hasCompletedOnboarding`, the save effect rewrites the key when that changed it, and goes to KYC |
| Onboarding.OnboardingScreen.HandleSkip | app/onboarding/index.tsx:114-117 | skipping completes onboarding and saves it, as the last step does |
| Kyc.ValidateStep | app/kyc/index.tsx:125-148 | step 0 passes iff first name, last name, date of birth, phone, email and address are all non-empty; step 1 iff the Emirates ID and selfie references are present and non-empty; step 2 iff phone and email are verified; other steps always pass |
| Kyc.ValidateIgnoresOptionalFields | app/kyc/index.tsx:127-139 | city, postal code, nationality, emirate, the passport and the documents-verified flag never affect any step |
| Kyc.InitialDataFailsFirstThreeSteps | app/kyc/index.tsx:57-80 | the initial empty data fails steps 0, 1 and 2, each with its own message, and passes step 3 |
| Kyc.SetPersonal | app/kyc/index.tsx:176-184 | updating one personal field sets that field and leaves every other field as it was |
| Kyc.SetDocument | app/kyc/index.tsx:186-197 | uploading one document sets that document and leaves the other two as they were |
| Kyc.UploadsSatisfyDocumentStep | app/kyc/index.tsx:186-197 | uploading the Emirates ID and the selfie, in either order, passes the document step |
| Kyc.KycScreen.constructor | app/kyc/index.tsx:55-81 | starts on step 0 with the empty data, no skip dialog and not loading |
| Kyc.KycScreen.HandleNext | app/kyc/index.tsx:93-101 | the result is the current step's validation; a failure changes nothing; a pass advances, or submits on the last step |
| Kyc.KycScreen.HandleSubmit | app/kyc/index.tsx:150-151 | loading starts and the current data is submitted once |
| Kyc.KycScreen.SubmitSettled | app/kyc/index.tsx:171-173 | loading ends and nothing else changes |
| Kyc.KycScreen.ContinueAfterSubmit | app/kyc/index.tsx:156-166 | the success dialog's Continue completes KYC, saves the changed flags and goes to the tabs |
| Kyc.KycScreen.HandlePrevious | app/kyc/index.tsx:103-107 | steps back one step, never below 0 |
| Kyc.KycScreen.HandleSkip | app/kyc/index.tsx:109-111 | opens the skip dialog |
| Kyc.KycScreen.HandleSkipCancel | app/kyc/index.tsx:121-123 | closes the skip dialog |
| Kyc.KycScreen.HandleSkipConfirm | app/kyc/index.tsx:113-119 | closes the dialog, completes KYC and saves the changed flags, and goes to the tabs without validating |
| Kyc.KycScreen.UpdatePersonalInfo | app/kyc/index.tsx:176-184 | changes exactly one personal field |
| Kyc.KycScreen.HandleDocumentUpload | app/kyc/index.tsx:186-197 | stores the mock image URL for exactly one document |
| Kyc.KycScreen.HandleVerification | app/kyc/index.tsx:199-218 | marks exactly the chosen channel (phone or email) verified |
| AddFunds.DefaultMethod | components/AddFundsModal.tsx:87 | the reset selects a method from the table that is marked default |
| AddFunds.DefaultIsFeeFreeBankTransfer | components/AddFundsModal.tsx:41-87 | that method is the first entry, id '1', with fee 0 |
| AddFunds.AmountCheck | components/AddFundsModal.tsx:96-109 | in order: empty or ≤ 0 is invalid, < 10 is below the minimum, > 50000 is above the maximum; NaN passes |
| AddFunds.AmountAcceptedIffWithinBounds | components/AddFundsModal.tsx:98-109 | a number passes exactly when 10 ≤ amount ≤ 50000 |
| AddFunds.ConfirmTotal | components/AddFundsModal.tsx:284 | the total is NaN exactly when the amount is |
| AddFunds.ConfirmTotalAddsFee | components/AddFundsModal.tsx:41-82 | the total is the amount plus the method's fee: 0, 2.5, 1.5 or 5.0 |
| AddFunds.AddFundsModal.constructor | components/AddFundsModal.tsx:36-39 | first token, empty amount, no method selected, amount step |
| AddFunds.AddFundsModal.ResetModal | components/AddFundsModal.tsx:84-89 | back to the amount step with an empty amount, the default method and the first token |
| AddFunds.AddFundsModal.HandleClose | components/AddFundsModal.tsx:91-94 | resets, then reports the close |
| AddFunds.AddFundsModal.HandleNext | components/AddFundsModal.tsx:96-121 | the amount step advances iff `AmountCheck` passes; the method step iff a method is selected; the confirm step reports one `onAddFunds` with parsed amount, token and method, then closes |
| AddFunds.AddFundsModal.HandlePrevious | components/AddFundsModal.tsx:123-129 | one step back; nothing on the amount step |
| AddFunds.AddFundsModal.SetAmount | components/AddFundsModal.tsx:171 | the amount input changes only the amount |
| AddFunds.AddFundsModal.SelectToken | components/AddFundsModal.tsx:142 | changes only the token |
| AddFunds.AddFundsModal.SelectPaymentMethod | components/AddFundsModal.tsx:246 | changes only the method |
| CashOut.DefaultAccount | components/CashOutModal.tsx:69 | the reset selects an account from the list that is marked default |
| CashOut.DefaultIsFirstAccount | components/CashOutModal.tsx:39-69 | that account is the first entry, id '1' |
| CashOut.AmountCheck | components/CashOutModal.tsx:78-88 | in order: empty or ≤ 0 is invalid, above the token balance is insufficient; NaN passes; a number passes iff 0 < amount ≤ balance |
| CashOut.MaxAmountPasses | components/CashOutModal.tsx:165 | the MAX amount passes the amount step when the balance is positive and its text reads back as itself |
| CashOut.AmountCheckMonotoneInBalance | components/CashOutModal.tsx:84-87 | a larger balance never rejects an amount a smaller one accepted |
| CashOut.CashOutModal.constructor | components/CashOutModal.tsx:34-37 | first token, empty amount, no account selected, amount step |
| CashOut.CashOutModal.ResetModal | components/CashOutModal.tsx:66-71 | back to the amount step with an empty amount, the default account and the first token |
| CashOut.CashOutModal.HandleClose | components/CashOutModal.tsx:73-76 | resets, then reports the close |
| CashOut.CashOutModal.HandleNext | components/CashOutModal.tsx:78-99 | the amount step advances iff `AmountCheck` passes against the token balance; the bank step iff an account is selected; the confirm step reports one `onCashOut`, then closes |
| CashOut.CashOutModal.HandlePrevious | components/CashOutModal.tsx:101-107 | one step back; nothing on the amount step |
| CashOut.CashOutModal.SetMaxAmount | components/CashOutModal.tsx:165 | the amount becomes the balance's text and nothing else changes |
| CashOut.CashOutModal.SetAmount | components/CashOutModal.tsx:151 | changes only the amount |
| CashOut.CashOutModal.SelectToken | components/CashOutModal.tsx:120 | changes only the token |
| CashOut.CashOutModal.SelectBankAccount | components/CashOutModal.tsx:213 | changes only the account |
| CashOut.MaxThenNext | components/CashOutModal.tsx:165 | MAX followed by continue moves from the amount step to the bank step |
| Transfer.SendCheck | components/TransferModal.tsx:46-52 | sending passes exactly when both amount and recipient are non-empty |
| Transfer.SendDisabledIffRefused | components/TransferModal.tsx:154-157 | the send button's `SendDisabled` rule (`!amount \|\| !recipient`) holds exactly when `handleSend` would refuse |
| Transfer.TransferModal.constructor | components/TransferModal.tsx:27-32 | the active tab is the `initialTab` prop at mount, with the first token, empty fields and no overlays |
| Transfer.TransferModal.SetInitialTab | components/TransferModal.tsx:27 | a new `initialTab` prop changes only the prop: the active tab does not follow it until the next reset |
| Transfer.OpenOnOtherTabThenClose | components/TransferModal.tsx:27-43 | a modal mounted on Send and opened through Receive still shows Send, and after a close rests on Receive |
| Transfer.TransferModal.ResetModal | components/TransferModal.tsx:34-39 | back to the current `initialTab` prop with empty fields and the first token; the overlays are left as they are |
| Transfer.TransferModal.HandleClose | components/TransferModal.tsx:41-44 | resets to the current `initialTab` prop, then reports the close |
| Transfer.TransferModal.HandleSend | components/TransferModal.tsx:46-52 | opens the biometric prompt exactly when `SendCheck` passes; nothing else changes |
| Transfer.TransferModal.HandleBiometricSuccess | components/TransferModal.tsx:54-61 | hides the prompt and shows a receipt of amount, token symbol and recipient |
| Transfer.TransferModal.HandleBiometricCancel | components/TransferModal.tsx:263 | hides the prompt and clears nothing |
| Transfer.TransferModal.HandleQRScan | components/TransferModal.tsx:63-66 | the scanned text becomes the recipient and the scanner hides |
| Transfer.TransferModal.SelectContact | components/TransferModal.tsx:147 | the contact's address becomes the recipient |
| Transfer.TransferModal.SetTab | components/TransferModal.tsx:236-245 | changes only the tab |
| Transfer.TransferModal.SetScannerVisible | components/TransferModal.tsx:137 | changes only the scanner's visibility |
| Transfer.TransferModal.SetAmount | components/TransferModal.tsx:99 | changes only the amount |
| Transfer.TransferModal.SetRecipient | components/TransferModal.tsx:131 | changes only the recipient |
| Transfer.TransferModal.SelectToken | components/TransferModal.tsx:87 | changes only the token |
| QrScanner.Scanner.constructor | components/QRScanner.tsx:23-30 | not scanned, torch off, nothing reported |
| QrScanner.Scanner.SetVisible | components/QRScanner.tsx:26-30 | becoming visible re-arms the scan latch; any other change keeps it |
| QrScanner.Scanner.BarcodeDetected | components/QRScanner.tsx:60-95 | the camera handler is attached only while `HandlerAttached` (`scanned ? undefined : handleBarCodeScanned`); the first barcode while armed reports `onScan(data)` then `onClose` and closes the latch; later ones report nothing |
| QrScanner.Scanner.ManualEntry | components/QRScanner.tsx:124-141 | non-empty text reports `onScan(text)` then `onClose`; empty text does nothing |
| QrScanner.Scanner.ToggleFlash | components/QRScanner.tsx:68-70 | flips the torch and nothing else |
| QrScanner.Scanner.CloseButton | components/QRScanner.tsx:77 | reports `onClose` only |
| QrScanner.ScanSession | components/QRScanner.tsx:26-95 | two barcodes in a row report only the first; hiding and showing re-arms the scanner for exactly one more |
| Rewards.ListForTab | app/rewards/index.tsx:260-267 | each tab shows its own list |
| Rewards.FilterByCategory | app/rewards/index.tsx:272 | a reward is kept iff it is in the list with the selected category; the result is never longer |
| Rewards.FilterPreservesOrder | app/rewards/index.tsx:272 | the filtered list is a subsequence of the tab's list, in the same order |
| Rewards.FilterMultiplicity | app/rewards/index.tsx:272 | each matching reward is kept exactly as often as it occurs; others never |
| Rewards.FilteredRewards | app/rewards/index.tsx:260-273 | the 'all' category shows the tab's list unchanged; any other shows exactly its matching rewards |
| Rewards.FilteredRewardsPreservesOrder | app/rewards/index.tsx:260-273 | whatever the category, the shown list keeps the tab list's order |
| Rewards.AllCategoryRewardOnlyUnderAllFilter | app/rewards/index.tsx:269-272 | a reward whose own category is 'all' is shown only under the 'all' filter |
| Rewards.ClaimReward | app/rewards/index.tsx:275-302 | fewer points than the cost reports the exact positive shortfall; otherwise asks to confirm with the reward's title and points |
| Rewards.ClaimButtonMatchesClaim | app/rewards/index.tsx:428-437 | the claim button given by `ClaimButtonFor` is disabled, and captioned "Insufficient Points", exactly when the claim would be refused |
| Rewards.CatalogueClaims | app/rewards/index.tsx:276-283 | with 2450 points only the 3500-point dining experience is out of reach, 1050 short |
| Rewards.RewardsScreen.constructor | app/rewards/index.tsx:55-56 | starts on the 'all' category and the available tab |
| Rewards.RewardsScreen.SelectCategory | app/rewards/index.tsx:362 | changes only the category |
| Rewards.RewardsScreen.SelectTab | app/rewards/index.tsx:482-500 | changes only the tab |
| Rewards.RewardsScreen.HandleClaimReward | app/rewards/index.tsx:275-302 | the outcome is the claim check against the screen's points; no state changes |

## Left out

- Rendering, styles, icons, animations and the onboarding carousel's `handleScroll` and `scrollTo` are not modelled; they only display state.
- Timers and `await`: the 1 s login delay, the 2 s KYC submit, the 100 ms redirect delay and the biometric prompt's timing are treated as steps. The KYC submit is split into `HandleSubmit`, `SubmitSettled` and `ContinueAfterSubmit`, and interleavings with other events are not modelled.
- The `parseFloat` grammar and `Number.prototype.toString` are parameters (`parse`, `show`), not defined, because they are JavaScript built-ins.
- Floating-point arithmetic is modelled by exact reals. The `toFixed` display values, the token conversion lines and the fixed 2.50 cash-out fee shown on screen are not modelled, because they affect display only.
- The JSON text layer (`JSON.stringify` and `JSON.parse` of text) is not modelled. Storage holds either a parsed value or a marker for text that does not parse.
- AuthState.Decode: a loaded truthy non-boolean field (a number, a string) becomes `true`, whereas the hook stores the raw value. Every later truthiness test treats the two alike.
- Platforms without a `localStorage` global (native builds) are not modelled; storage is always present. On such platforms the load effect throws a ReferenceError at hooks/useAuth.ts:24, before its `try`, because optional chaining does not guard an undeclared name. Only the save and `logout` are guarded by `typeof`.
- The state shared through `AuthContext` is not modelled; each screen owns a separate hook instance, just as it does when it calls `useAuth()`.
- The console logging in the load and redirect effects is not modelled, because it has no effect.
- Sign-in's show/hide password toggles are not modelled, because they change display only.
- The KYC submit's `catch` branch is not modelled, because nothing in its `try` block can throw.
- The transfer modal's `handleReceive` dialogs and the copy/share buttons are not modelled, because they change no state.
- The quick-amount buttons of the add-funds and transfer modals are covered by `SetAmount` with the number's text.
- Kyc.KycScreen.HandleNext: the Next button's `disabled={isLoading}` is not modelled; the handler itself does not test it.
- SignIn.AuthScreen.HandleAuth: the submit button's `disabled={isLoading}` (app/auth/index.tsx:185) is not modelled; the handler itself does not test it, so the model also lets a second submit through while loading.
- RootRouting.InitialRoute: the redirect is a function of the flags the effect sees. The first run after mount sees the flags from before the load's updates are rendered (all false). If the navigator is already ready, that run can send a returning user to sign-in just before the re-render's correct redirect. This render timing is not modelled.
- The camera permission request screens of the QR scanner are not modelled, because they are platform I/O.
- The cancel button of the manual-entry prompt is not modelled, because it does nothing.
- The "Reward Claimed!" follow-up dialog is not modelled, because it changes nothing.
- The modals' `visible` prop is not modelled; opening a modal does not reset it, only closing does.
- React state updates are modelled as taking effect at once, before the next event; the batching and deferred re-render of `setState` are not modelled.
- QrScanner.Scanner.BarcodeDetected: the `scanned` latch is modelled as closing before the next camera event. The handler is swapped out only on re-render, so two detections delivered before that re-render could both report `onScan` and `onClose`; the model does not capture that.
- Reward points are modelled as integers (`int`), where the source's field is a JavaScript `number`; every catalogue value and the user's total are whole numbers.
- Display-only components and mock data outside these screens (portfolio, tier progress, category counts) are not part of this model.
