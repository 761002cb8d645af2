# DevSuite front end: wizard, sign-in form and page router in Dafny

DevSuite is a single-page demo front end for a blockchain tooling suite. It has
almost no logic beyond presentation. This project models the three pieces that
do change state by rules:

- **Bridge Flow Composer** (`Bridge.dfy`, from `src/components/Module3BridgeComposer.tsx`).
  This is a three-step wizard: Deposit, then Bridge, then Withdraw. The state is
  the step counter `currentStep` and the record `bridgeData`, which holds
  the five step-1 inputs and three mock transaction hashes.
  - `Bridge.Composer` is a class with `Edit` (the five input handlers), `Advance`
    (`handleNext`) and `Reset` ("Reset Flow").
  - `Advance` is proved against the pure functions `NextStep` and `RecordHash`.
    The invariant `ProgressConsistent` holds throughout. It says the deposit
    hash is set exactly once step 1 has been left, the bridge hash exactly once
    step 2 has been left, a withdraw hash exists only at step 3, and every hash
    is empty or starts with `0x`.
  - `Advances` folds any number of presses. The lemmas about it cover repeated
    withdraws and the full three-step flow.
- **Sign-in / sign-up form** (`Auth.dfy`, from `src/components/AuthSystem.tsx`).
  - The validation rules: the unanchored email expression `\S+@\S+\.\S+` is
    stated over positions; the password length counts UTF-16 code units; the
    sign-up-only name and confirmation checks.
  - `Auth.AuthForm` is a class with `Validate`, `ChangeInput`, `ToggleMode` and
    `Submit`.
  - The user a submission creates, including the display-name fallback.
- **Page router** (`Index.dfy`, from `src/pages/Index.tsx`, with the
  active-card guard of `src/components/Dashboard.tsx`).
  - `Index.App` is a class over `currentView`, `currentModule` and `user`, with
    the five handlers.
  - `Render` is the pure `renderCurrentView` dispatch.
  - The invariant `Consistent` says the dashboard is never reached without a
    user, and an open module is always a selectable card shown as its tool.

Randomness is a parameter. `Math.random().toString(16)` becomes the string
`randomText`, and the random user id becomes `randomId`. The stored user that
the page reads on mount is the constructor's `Option<User>` argument.

Four facts about the bridge wizard's code shape its model:
- The code raises no errors. The only guard is the disabled
  "Initiate Deposit" button. It becomes `Advance`'s precondition at step 1.
- The code does not keep the source and target chains apart. Changing the
  source chain leaves the target chain alone (`SameChainCanBeInitiated`). Only
  the offered target choices exclude the source chain.
- Each press at step 3 regenerates the withdraw hash (`RepeatedWithdraw`).
- A mock hash is `"0x"` plus at most 64 characters of a float's hexadecimal
  text. That is usually far fewer than 64 digits, so the hash is as long as
  that text, capped at 66 characters, and no fixed length is claimed.

## Model

| member | source | states |
|---|---|---|
| `Bridge.JsSubstring` | src/components/Module3BridgeComposer.tsx:37 | `substring(start, end)` clamps its bounds to the text: the result is the part of the text from `start` on, as long as the clamped range |
| `Bridge.MockTxHash` | src/components/Module3BridgeComposer.tsx:36-38 | every mock hash starts with "0x", continues with the random text from its third character on, and has as many characters as that text, up to 66 |
| `Bridge.MockTxHashIsHex` | src/components/Module3BridgeComposer.tsx:36-38 | when the random text is a hexadecimal fraction "0.…", the hash is "0x" followed only by hex digits, and is as long as that text up to 66 characters |
| `Bridge.WithInput` | src/components/Module3BridgeComposer.tsx:163-219 | an input handler sets its own field and leaves the other four inputs and all three hashes unchanged |
| `Bridge.EditKeepsProgress` | src/components/Module3BridgeComposer.tsx:163-219 | editing an input preserves the wizard invariant |
| `Bridge.CanInitiateDeposit` | src/components/Module3BridgeComposer.tsx:261 | when the deposit button is enabled, every input other than the source chain is non-empty, so the record is no longer the initial one |
| `Bridge.CanInitiateDepositIff` | src/components/Module3BridgeComposer.tsx:261 | step 1 can be left exactly when every input except the source chain is non-empty |
| `Bridge.InitialCannotInitiate` | src/components/Module3BridgeComposer.tsx:261 | from the initial record the deposit button is disabled |
| `Bridge.SameChainCanBeInitiated` | src/components/Module3BridgeComposer.tsx:163 | changing the source chain to the chosen target keeps the target, so a configuration with equal chains can still be submitted |
| `Bridge.NextStep` | src/components/Module3BridgeComposer.tsx:65-67 | the step stays in 1..3, moves forward by at most one, and stays put exactly at 3 |
| `Bridge.RecordHash` | src/components/Module3BridgeComposer.tsx:45-63 | the press records the new hash in the current step's field; the other two hashes and all five inputs are unchanged |
| `Bridge.InitialIsConsistent` | src/components/Module3BridgeComposer.tsx:10-20 | the initial step and record satisfy the wizard invariant |
| `Bridge.AdvanceKeepsProgress` | src/components/Module3BridgeComposer.tsx:44-68 | one press preserves the invariant (hash of step N set iff step N was left; withdraw hash only at step 3; every hash "" or "0x"-prefixed) |
| `Bridge.Advances` | src/components/Module3BridgeComposer.tsx:44-68 | repeated presses never move the step backwards nor past 3, and with no presses the step and record are unchanged |
| `Bridge.AdvancesKeepProgress` | src/components/Module3BridgeComposer.tsx:44-68 | any number of presses preserves the invariant and never changes an input |
| `Bridge.AdvancesStep` | src/components/Module3BridgeComposer.tsx:65-67 | after n presses from step s the step is min(s + n, 3) |
| `Bridge.RepeatedWithdraw` | src/components/Module3BridgeComposer.tsx:57-67 | repeated presses at step 3 keep the step at 3, keep every other field, and leave the hash of the last press as the withdraw hash |
| `Bridge.AdvancesSetWithdraw` | src/components/Module3BridgeComposer.tsx:57-62 | once a press happens at step 3, the withdraw hash is set and "0x"-prefixed |
| `Bridge.FullFlow` | src/components/Module3BridgeComposer.tsx:44-68 | three or more presses from step 1 end at step 3 with all three hashes set and "0x"-prefixed |
| `Bridge.GetStepStatus` | src/components/Module3BridgeComposer.tsx:70-74 | a step is completed iff it is below the current step, active iff equal to it, pending iff above it |
| `Bridge.ExactlyOneActive` | src/components/Module3BridgeComposer.tsx:70-74 | for a current step in 1..3, the current step is the only active one |
| `Bridge.ChainsExcept` | src/components/Module3BridgeComposer.tsx:182 | the filter keeps exactly the chains whose id differs from the given one, each as often as in the input, never grows the list, and returns it whole when no id matches |
| `Bridge.TargetChainOptions` | src/components/Module3BridgeComposer.tsx:182 | the target choices are exactly the supported chains other than the source chain |
| `Bridge.TargetChainOptionsSize` | src/components/Module3BridgeComposer.tsx:22-27 | a supported source chain leaves three choices; an unsupported one leaves all four chains |
| `Bridge.Composer.constructor` | src/components/Module3BridgeComposer.tsx:10-20 | the wizard opens at step 1 with source "sui" and every other field empty, which satisfies the invariant |
| `Bridge.Composer.Edit` | src/components/Module3BridgeComposer.tsx:163-219 | an input handler changes only the record (as `WithInput`), not the step, and keeps the invariant |
| `Bridge.Composer.Advance` | src/components/Module3BridgeComposer.tsx:44-68 | a press records a fresh hash for the current step (as `RecordHash`), advances the step as `NextStep`, and keeps the invariant; at step 1 it needs the deposit to be configured |
| `Bridge.Composer.Reset` | src/components/Module3BridgeComposer.tsx:104-116 | from any state, reset yields step 1 and exactly the initial record |
| `Bridge.Composer.Statuses` | src/components/Module3BridgeComposer.tsx:129-134 | the stepper shows three statuses: steps before the current one completed, the current step alone active, and later steps pending |
| `Bridge.Composer.TargetOptions` | src/components/Module3BridgeComposer.tsx:182 | the target select offers exactly the supported chains other than the current source chain |
| `Auth.WithField` | src/components/AuthSystem.tsx:108-109 | the input update sets the named field and leaves the other three unchanged |
| `Auth.IsJsWhitespace` | src/components/AuthSystem.tsx:46 | the `\s` class of JavaScript regular expressions: space, tab, line feed and carriage return are whitespace, and no printable ASCII character is |
| `Auth.IsEmailLike` | src/components/AuthSystem.tsx:46 | an address that matches `\S+@\S+\.\S+` has an '@', a '.', and at least five characters |
| `Auth.EmailMatchAt` | src/components/AuthSystem.tsx:46 | a match with '@' at one position and '.' at a later one leaves no whitespace from the character before the '@' to the one after the '.' |
| `Auth.EmailLikeInContext` | src/components/AuthSystem.tsx:46 | the match is unanchored: surrounding text never turns a match into a mismatch |
| `Auth.EmailLikeExamples` | src/components/AuthSystem.tsx:46 | "dev@sui.io" and "my dev@sui.io" match; the empty string does not |
| `Auth.Utf16Length` | src/components/AuthSystem.tsx:52 | a string's JavaScript length lies between its character count and twice it |
| `Auth.EmailError` | src/components/AuthSystem.tsx:44-48 | "Email is required" iff the email is empty; "Email is invalid" iff it is non-empty and does not match; no error iff it matches |
| `Auth.PasswordError` | src/components/AuthSystem.tsx:50-54 | "Password is required" iff the password is empty; the too-short message iff it is non-empty with fewer than 6 code units; no error iff it has at least 6 |
| `Auth.FieldError` | src/components/AuthSystem.tsx:44-63 | the email and password errors are `EmailError` and `PasswordError`; the name error is "Name is required" iff in sign-up mode with an empty name; the confirmation error is "Passwords do not match" iff in sign-up mode with a differing confirmation; every message is non-empty, so it is displayed |
| `Auth.FormValidIff` | src/components/AuthSystem.tsx:41-67 | the form passes iff the email matches, the password has at least 6 code units, and in sign-up mode the name is non-empty and the confirmation equals the password |
| `Auth.LoginIgnoresSignUpFields` | src/components/AuthSystem.tsx:56-64 | in login mode, the name and confirmation cannot change the validation outcome |
| `Auth.Recorded` | src/components/AuthSystem.tsx:44-63 | one step of `validateForm` adds the field's message exactly when the field has an error and keeps every other entry |
| `Auth.CollectedErrors` | src/components/AuthSystem.tsx:42-66 | the successive steps of `validateForm` record exactly the fields with an error, each with its message, and the map is empty iff the form passes |
| `Auth.ClearedError` | src/components/AuthSystem.tsx:110-112 | an input change keeps the error keys, stops showing the changed field's error, and leaves every other field's message unchanged |
| `Auth.BeforeFirstAt` | src/components/AuthSystem.tsx:80 | `split('@')[0]` is the prefix of the text that contains no '@' and stops at the first '@' |
| `Auth.DisplayName` | src/components/AuthSystem.tsx:80 | the user's name is the entered name when non-empty, otherwise the email's text before its first '@' |
| `Auth.EmptyDisplayNameAccepted` | src/components/AuthSystem.tsx:80 | a login with email "@dev@sui.io" passes validation yet yields an empty display name |
| `Auth.NewUser` | src/components/AuthSystem.tsx:77-82 | the created user carries the random id and the entered email, has the developer role and no avatar, and its name is `DisplayName`: the entered name when non-empty, else a prefix of the email with no '@' |
| `Auth.GithubUser` | src/components/AuthSystem.tsx:94-100 | the GitHub user's id is "github-user-" followed by the random suffix; the user has the developer role and an avatar |
| `Auth.AuthForm.constructor` | src/components/AuthSystem.tsx:20-29 | the form opens in login mode with every input empty and no errors |
| `Auth.AuthForm.Validate` | src/components/AuthSystem.tsx:41-67 | the new errors hold exactly the failing fields with their messages, every one displayed; the result is true iff the form passes iff there are no errors |
| `Auth.AuthForm.ChangeInput` | src/components/AuthSystem.tsx:108-113 | only the named input changes, and its shown error is blanked while the other errors are kept |
| `Auth.AuthForm.ToggleMode` | src/components/AuthSystem.tsx:265-269 | the toggle flips the mode, drops every error and empties all four inputs |
| `Auth.AuthForm.Submit` | src/components/AuthSystem.tsx:69-88 | the errors are set as by `Validate`; a user is created iff the form passes validation, and it is `NewUser` of the submitted form |
| `Index.ToolScreen` | src/pages/Index.tsx:82-88 | exactly the three known module ids open a tool screen, each its own: the GraphQL studio, the SDK migration viewer and the bridge composer |
| `Index.Selectable` | src/components/Dashboard.tsx:183 | only the three module ids with a tool can be selected |
| `Index.ToolScreenInjective` | src/pages/Index.tsx:82-88 | distinct module ids open distinct tools |
| `Index.SelectableIffTool` | src/components/Dashboard.tsx:183 | the module cards that can be selected (status active) are exactly the ones with a tool screen |
| `Index.Render` | src/pages/Index.tsx:72-92 | landing view shows the landing page and auth view the sign-in form; in the dashboard view a known module shows its tool, and no module or an unknown one shows the dashboard with the current user |
| `Index.ConsistentScreens` | src/pages/Index.tsx:31-62 | in a consistent state every screen past landing and sign-in has a user, and an open module always shows its tool |
| `Index.InitialView` | src/pages/Index.tsx:16-29 | the page starts in the dashboard iff a stored user was found, otherwise on the landing page, never on the sign-in form |
| `Index.App.constructor` | src/pages/Index.tsx:11-29 | the page starts with no module, the stored user, and `InitialView`, in a consistent state |
| `Index.App.EnterApp` | src/pages/Index.tsx:31-37 | entering the app shows the dashboard when a user is present and the sign-in form otherwise |
| `Index.App.Authenticated` | src/pages/Index.tsx:39-42 | authenticating records the user and shows the dashboard |
| `Index.App.SelectModule` | src/pages/Index.tsx:44-46 | selecting an active card opens that module and shows its tool; view and user stay as they were |
| `Index.App.BackToDashboard` | src/pages/Index.tsx:48-50 | going back closes the module and, in the dashboard view, shows the dashboard again; view and user stay as they were |
| `Index.App.Logout` | src/pages/Index.tsx:52-62 | logout from any state clears the user and the module and shows the landing page |

## Left out

- `generateMockObjectId` and its calls while rendering steps 2 and 3: presentation only.
- `getStepColor`, the chain and asset names and symbols in the summaries, and the fixed progress, fee and time texts: presentation only.
- The asset list: the asset select fills `asset` with one of four ids, and the model keeps `asset` as the free string the record holds.
- Bridge.MockTxHash: `Math.random` is not modelled. Its text is the parameter `randomText`, and nothing is assumed about it. So the hash is promised its "0x" prefix and its length, not hex digits or uniqueness.
- Bridge.Composer.Edit: carries no step precondition. The source's input handlers have none; the inputs are simply rendered only at step 1.
- Storage (`localStorage` reads, writes and removal, with their try/catch): browser I/O. The stored user is an input to `Index.App`, and logout's removal is not modelled. A stored text that parses to `null` would open the dashboard with no user; the `Option<User>` input cannot express that case.
- Timers and loading flags (`setTimeout` before the user is created, `isLoading`, the page's loading spinner), and the show-password toggle: no semantic contract.
- Auth.AuthForm.Submit: returns the created user at once. The source hands it to `onAuthenticated` and storage after a 1.5 s delay; the delay is not modelled.
- The GraphQL studio, SDK-migration viewer, landing page, dashboard layout and documentation screens: static content and browser APIs. Only the dashboard's active-card guard is modelled, as `Index.App.SelectModule`'s precondition.
