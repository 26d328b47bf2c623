# hyprsqrl core, modelled in Dafny

This project models four parts of the hyprsqrl web application:

- **The Safe backend procedures** (`safe_router.dfy`, module `SafeRouter`).
  - `getTransactions` validates a Safe address. It then maps the Safe Transaction Service's records to the app's simplified transaction items, dropping unexecuted multisig records.
  - `getDeploymentPayload` builds the factory call that deploys a Safe for an owner.
  - `relaySponsoredTransaction` turns a signed relay request into a sponsored-call request.
- **The onboarding page that deploys the primary Safe** (`create_safe.dfy`, module `CreateSafe`).
  - `handleCreateSafe` runs these steps in order, with an early exit at each failure:
    1. the wallet guard and the state reset;
    2. the switch to Base and the chain verification;
    3. the owner address and the payload request;
    4. the EIP-712 typed-data signature and the relay submission.
  - An effect reconciles the relay task's status and persists the predicted address on success.
  - The page is a class whose fields are the page's state cells. A ghost trace records every external call, in order.
  - Each method is proved equal to a pure function of the old state and of the collaborators' outcomes (`AfterCreateSafe`, `AfterStatus`, `Run`). The lemmas state what the page promises about those functions.
- **The KYC information form** (`kyc_form.dfy`, module `KycForm`).
  - Default first and last names come from the user's display name.
  - The form schema, and the mapping to the `initiateKyc` mutation's input.
  - A class holding the `isSubmitting` flag. The flag's history over one submission is part of the class's state.
- **The tool-call indicators of the research assistant** (`tool_indicator.dfy`, module `ToolIndicator`).
  - Lookups from a tool name and an invocation state to the status text, the icon, the description and the style classes.
  - The row of indicators rendered for a list of invocations.

`js_values.dfy` (module `JsValues`) holds the JavaScript conventions the code relies on:

- optional properties;
- string truthiness;
- `slice` with negative and clamped indices;
- `split`, `join` and `includes`, with their algebraic properties.

External services are parameters of the model:

- the Safe Transaction Service's answer;
- the relay's `sponsoredCall`;
- the wallet's `switchChain`, provider, chain id, signer address and signature;
- the tRPC mutations' replies;
- date parsing.

Each one is supplied as an outcome: a value, or a thrown error.

Behaviour the model follows from the code, where a reader might expect otherwise:

- A plain Ethereum transaction whose `value` is absent, empty or `"0"` is classified `module`. No record is ever classified `incoming` or `creation` (safe-router.ts:40-49).
- `getDeploymentPayload` accepts any owner string. It appends `owner.slice(2)` without checking it. The predicted address is always the zero placeholder.
- `pollingInterval` is only ever set to `null`, so nothing here claims that polling stops on a terminal status.
- A rejected `eth_chainId` request leaves the error message and `isLoading = false` behind, and the attempt never resumes. The model treats this as an exit (`ChainUnverified`).
- A failed persistence interpolates `error.message`. When the message is absent it shows the text `undefined`.
- The name split keeps empty pieces. With a leading space the default first name is `''`. With double spaces the last name keeps them.
- A tool indicator without a state prop takes the style table's default `call` state for its class (`opacity-90`), but its status text reads `Complete`: the text compares the prop itself against `partial-call` and `call` (tool-indicator.tsx:142-147, 57-60).
- A reverted or cancelled relay task shows its failure but keeps its task id, so the start button stays disabled and the status is still polled. The user cannot start another attempt on the page (page.tsx:91-102, 386).
- For a tool name outside the style table, the variant lookup uses the name itself as the key and finds no entry, so no tool colour class is added. The gray `default` entry is used only when the name is empty.

## Model

| member | source | states |
|---|---|---|
| JsValues.OrElse | packages/web/src/app/onboarding/create-safe/page.tsx:242 | `a \|\| b` on a string yields `a` exactly when it is present and non-empty, otherwise the fallback |
| JsValues.SliceFrom | packages/web/src/app/onboarding/create-safe/page.tsx:292 | `s.slice(k)` is the suffix from `k` for an in-range index and empty past the end; a negative `k` counts from the end, and one reaching before the start gives the whole string |
| JsValues.IncludesIffOccurs | packages/web/src/app/onboarding/create-safe/page.tsx:251 | `includes` holds exactly when the substring occurs at some offset |
| JsValues.Split | packages/web/src/components/settings/align-integration/align-kyc-form.tsx:49 | `split(' ')` yields at least one piece and no piece contains the separator |
| JsValues.JoinSplit | packages/web/src/components/settings/align-integration/align-kyc-form.tsx:49-51 | joining the pieces of a split with the same separator gives back the string |
| JsValues.IndexOf | packages/web/src/components/settings/align-integration/align-kyc-form.tsx:49 | the position found holds the separator and none comes before it; -1 exactly when the separator is absent |
| JsValues.SplitWithoutSeparator | packages/web/src/components/settings/align-integration/align-kyc-form.tsx:49-50 | without a separator the split is the whole string |
| JsValues.SplitAtFirstSeparator | packages/web/src/components/settings/align-integration/align-kyc-form.tsx:49-51 | the first piece is the text before the first separator, and the other pieces, joined, are the text after it |
| SafeRouter.HexRunIff | packages/web/src/server/routers/safe-router.ts:93 | the matcher for `[a-fA-F0-9]{n}$` accepts exactly `n` hex digits |
| SafeRouter.IsSafeAddress | packages/web/src/server/routers/safe-router.ts:93 | the address refinement `/^0x[a-fA-F0-9]{40}$/`; what it accepts is stated by `SafeAddressIff` |
| SafeRouter.SafeAddressIff | packages/web/src/server/routers/safe-router.ts:93 | an address is accepted exactly when it is `0x` followed by 40 hex digits, 42 characters in all |
| SafeRouter.Classify | packages/web/src/server/routers/safe-router.ts:40-49 | an Ethereum transaction is outgoing exactly when its value is truthy and not `"0"`; a module transaction is module; a multisig one is module exactly when executed; nothing is incoming or creation |
| SafeRouter.MapTxItem | packages/web/src/server/routers/safe-router.ts:38-68 | a record maps to nothing exactly when it is an unexecuted multisig; otherwise hash, parsed timestamp, from, to and value are copied, token fields come from `tokenInfo` when present, and the method name from `dataDecoded` when present |
| SafeRouter.DropNulls | packages/web/src/server/routers/safe-router.ts:123 | the filter keeps exactly the present values and never lengthens the list |
| SafeRouter.DropNullsAppend | packages/web/src/server/routers/safe-router.ts:123 | filtering distributes over concatenation, so the input's order is kept |
| SafeRouter.MapResults | packages/web/src/server/routers/safe-router.ts:121-123 | `results.map(mapTxItem).filter(tx => tx !== null)`; its properties are stated by the three lemmas below |
| SafeRouter.MapResultsSingle | packages/web/src/server/routers/safe-router.ts:121-123 | a single record yields its item, or nothing when skipped |
| SafeRouter.MapResultsAppend | packages/web/src/server/routers/safe-router.ts:121-123 | mapping a concatenation concatenates the mapped lists |
| SafeRouter.MapResultsBounds | packages/web/src/server/routers/safe-router.ts:121-123 | at most one item per record; every item comes from an unskipped record; every unskipped record yields its item |
| SafeRouter.GetTransactions | packages/web/src/server/routers/safe-router.ts:89-141 | an invalid address is a bad request and nothing else is; a failed fetch or a non-ok reply is the internal error with the fixed message; a body without results is the empty list; otherwise the mapped list, never longer than the records |
| SafeRouter.GetDeploymentPayload | packages/web/src/server/routers/safe-router.ts:144-170 | the target is the Safe proxy factory, the value is `"0"` and the predicted address is the zero address; for every owner the data is the fixed call prefix followed by `owner.slice(2)`, so for an owner of two or more characters it is the prefix and the owner without its first two characters, and for a shorter owner the prefix alone |
| SafeRouter.OwnerRoundTrip | packages/web/src/server/routers/safe-router.ts:159 | an owner written with `0x` can be read back out of the call data |
| SafeRouter.CallDataLength | packages/web/src/server/routers/safe-router.ts:159 | for a valid owner address the data is exactly 40 characters longer than the prefix |
| SafeRouter.RelaySponsoredTransaction | packages/web/src/server/routers/safe-router.ts:182-213 | the relay service is called with the request's chain id, target, data and value, and its task id or error is returned unchanged |
| SafeRouter.RelayIgnoresSignature | packages/web/src/server/routers/safe-router.ts:193-206 | the signature is not forwarded: inputs differing only in their signature get the same answer |
| CreateSafe.Digits | packages/web/src/app/onboarding/create-safe/page.tsx:159 | a chain id interpolated into a template is a non-empty run of decimal digits |
| CreateSafe.DigitsValue | packages/web/src/app/onboarding/create-safe/page.tsx:159 | reading the digits back gives the number, so the interpolation loses nothing |
| CreateSafe.DigitsInjective | packages/web/src/app/onboarding/create-safe/page.tsx:159 | two numbers print the same digits exactly when they are equal |
| CreateSafe.WrongChainMessageShowsChainId | packages/web/src/app/onboarding/create-safe/page.tsx:159 | the wrong-chain message shows, right after its fixed opening and closed by a comma, digits that spell the chain id the wallet reported |
| CreateSafe.SignFailureMessage | packages/web/src/app/onboarding/create-safe/page.tsx:242 | the inner catch reports the error's message, or `Unknown error` when it is absent or empty |
| CreateSafe.OuterErrorMessage | packages/web/src/app/onboarding/create-safe/page.tsx:250-258 | a message containing the wallet rejection wins; otherwise `shortMessage`; otherwise `message`; otherwise the fixed default |
| CreateSafe.OuterErrorMessageNonEmpty | packages/web/src/app/onboarding/create-safe/page.tsx:250-261 | the outer catch always shows a non-empty error |
| CreateSafe.RejectionAnywhere | packages/web/src/app/onboarding/create-safe/page.tsx:251-252 | a rejection phrase anywhere in the message is reported as a rejection, whatever `shortMessage` says |
| CreateSafe.ShortAddress | packages/web/src/app/onboarding/create-safe/page.tsx:291-294 | without an address, `No wallet connected`; otherwise, for every address, its first six characters (all of it when shorter), `...`, and its last four (all of it when shorter) |
| CreateSafe.ShortAddressOfSafeAddress | packages/web/src/app/onboarding/create-safe/page.tsx:291-294 | a well-formed address shortens to 13 characters that start with `0x` |
| CreateSafe.RelayDomain | packages/web/src/app/onboarding/create-safe/page.tsx:197-202 | the EIP-712 domain is `GelatoRelayERC2771`, version `1`, on the given chain, with the fixed verifying contract |
| CreateSafe.RelayRequestOf | packages/web/src/app/onboarding/create-safe/page.tsx:183-188 | the relay request is on Base and carries the payload's target, data and value |
| CreateSafe.ForwardMessageOf | packages/web/src/app/onboarding/create-safe/page.tsx:213-218 | the signed message is on Base and carries the request's target, data and value |
| CreateSafe.Run | packages/web/src/app/onboarding/create-safe/page.tsx:116-263 | an attempt calls nothing exactly when there is no wallet, and otherwise starts with the switch to Base; it makes at most seven calls; it submits a task exactly when every step succeeds on Base, with the payload's predicted address and the relay's task id |
| CreateSafe.BeginAttempt | packages/web/src/app/onboarding/create-safe/page.tsx:124-127 | an attempt starts loading, with no error, no address and no task id, and keeps `needsWallet` |
| CreateSafe.AfterCreateSafe | packages/web/src/app/onboarding/create-safe/page.tsx:116-263 | `needsWallet` is raised by a missing wallet and otherwise kept; without a wallet loading, task id and address are untouched; with one, an address is tracked exactly on the sign-or-relay-failure and submitted exits, it is the payload's predicted address, and a task id comes with an address |
| CreateSafe.StartDisabled | packages/web/src/app/onboarding/create-safe/page.tsx:386 | the button's `disabled` expression: loading, no wallet, or a truthy task id |
| CreateSafe.AfterPress | packages/web/src/app/onboarding/create-safe/page.tsx:385-386 | a press runs `handleCreateSafe` only when the button is enabled; `DisabledPressIsNoOp` states the disabled case |
| CreateSafe.AfterWalletCheck | packages/web/src/app/onboarding/create-safe/page.tsx:107-114 | the wallet effect sets `needsWallet` to the absence of a wallet and changes nothing else |
| CreateSafe.NoWalletAttempt | packages/web/src/app/onboarding/create-safe/page.tsx:118-122 | without a wallet only `needsWallet` and the error change, and nothing is called |
| CreateSafe.ChainFailureStopsEarly | packages/web/src/app/onboarding/create-safe/page.tsx:131-162 | a failed switch, an unverifiable chain or a wrong chain clears loading with an error, sets no address or task id, and makes no payload, signing or relay call |
| CreateSafe.SignOrRelayFailure | packages/web/src/app/onboarding/create-safe/page.tsx:222-244 | a failed signature or relay reports the sign-failure message for that error, clears loading, sets no task id and keeps the predicted address |
| CreateSafe.TaskIdOnlyFromRelay | packages/web/src/app/onboarding/create-safe/page.tsx:232-239 | a task id is set exactly when the relay returned one; it is that id, and the relay call is the attempt's seventh and last call |
| CreateSafe.RelayCallIsLast | packages/web/src/app/onboarding/create-safe/page.tsx:232-235 | an attempt calls the relay at most once, and only as its last call; an attempt that calls it ends submitted or with the relay's own failure |
| CreateSafe.RequestsFollowPayload | packages/web/src/app/onboarding/create-safe/page.tsx:169-235 | the payload is requested for the signer's address; the signing request uses the fixed domain on Base, the `ForwardRequest` types and the payload's fields; the relay gets the same request and the wallet's signature |
| CreateSafe.ServedPayloadAttempt | packages/web/src/app/onboarding/create-safe/page.tsx:174-188 | with the payload the server builds, the relay targets the Safe proxy factory on Base with value `"0"`, and the tracked address is the zero placeholder |
| CreateSafe.ExitLeavesLoading | packages/web/src/app/onboarding/create-safe/page.tsx:116-263 | every failure exit clears loading and shows a non-empty error; a submitted attempt stays loading with no error |
| CreateSafe.AttemptIgnoresEarlierState | packages/web/src/app/onboarding/create-safe/page.tsx:124-127 | with a wallet, an attempt's result does not depend on earlier attempts, apart from `needsWallet` |
| CreateSafe.DisabledPressIsNoOp | packages/web/src/app/onboarding/create-safe/page.tsx:386 | no wallet, loading, or a tracked task id disables the button: nothing changes and nothing is called |
| CreateSafe.SecondPressAfterSubmitIsNoOp | packages/web/src/app/onboarding/create-safe/page.tsx:386 | after a submitted attempt, another press changes nothing and calls nothing |
| CreateSafe.AfterCreateSafeConsistent | packages/web/src/app/onboarding/create-safe/page.tsx:124-239 | an attempt preserves the invariant that a task id comes with a tracked address |
| CreateSafe.AfterStatus | packages/web/src/app/onboarding/create-safe/page.tsx:52-104 | the status effect keeps the task id, the tracked address and `needsWallet`, never starts loading, and changes anything only for a tracked task in a terminal state |
| CreateSafe.SuccessPersistsTrackedAddress | packages/web/src/app/onboarding/create-safe/page.tsx:56-89 | on success with an address, persistence is called with exactly that address; loading is cleared; the address is kept; a persistence failure shows the copy-the-address message |
| CreateSafe.SubmittedThenSuccess | packages/web/src/app/onboarding/create-safe/page.tsx:58-73 | after a submitted attempt, a successful task persists exactly the relayed payload's predicted address |
| CreateSafe.SuccessWithoutAddressIsNoOp | packages/web/src/app/onboarding/create-safe/page.tsx:56-58 | success without an address changes nothing and persists nothing |
| CreateSafe.TerminalFailure | packages/web/src/app/onboarding/create-safe/page.tsx:91-94 | a reverted or cancelled task shows `Deployment failed: <state>. Please try again.` and clears loading, persisting nothing |
| CreateSafe.NonTerminalIsNoOp | packages/web/src/app/onboarding/create-safe/page.tsx:102 | any other task state changes nothing and calls nothing |
| CreateSafe.AfterStatusConsistent | packages/web/src/app/onboarding/create-safe/page.tsx:52-104 | the status effect keeps the task id and the task-id-implies-address invariant |
| CreateSafe.PendingThenSuccess | packages/web/src/app/onboarding/create-safe/page.tsx:52-104 | pending statuses followed by success persist exactly once, with the tracked address, and end with loading cleared |
| CreateSafe.PendingThenFailure | packages/web/src/app/onboarding/create-safe/page.tsx:91-102 | pending statuses followed by a revert or cancellation persist nothing and end with the failure shown and loading cleared |
| CreateSafe.FailedTaskKeepsStartDisabled | packages/web/src/app/onboarding/create-safe/page.tsx:91-102 | after a reverted or cancelled task the failure is shown and loading cleared, but the task id stays, so the start button stays disabled and another press does nothing and calls nothing |
| CreateSafe.CreateSafePage.constructor | packages/web/src/app/onboarding/create-safe/page.tsx:31-36 | the state cells start not loading, with no error, address, task id or wallet prompt |
| CreateSafe.CreateSafePage.HandleCreateSafe | packages/web/src/app/onboarding/create-safe/page.tsx:116-263 | the new state is `AfterCreateSafe` of the old state, the trace grows by exactly the attempt's calls, and the page invariant is kept |
| CreateSafe.CreateSafePage.VerifyChain | packages/web/src/app/onboarding/create-safe/page.tsx:131-162 | reports Base exactly when the chain steps pass; otherwise the state is the chain failure's settled state |
| CreateSafe.CreateSafePage.Deploy | packages/web/src/app/onboarding/create-safe/page.tsx:166-244 | the state is the deployment steps' settled state, and a task id is only set right after the relay call |
| CreateSafe.CreateSafePage.SignAndSubmit | packages/web/src/app/onboarding/create-safe/page.tsx:182-244 | once the payload has arrived, the state is the submitted task id or the sign-failure message, and the trace grows by the signing and relay calls, the relay last |
| CreateSafe.CreateSafePage.PressStart | packages/web/src/app/onboarding/create-safe/page.tsx:385-386 | a press runs the attempt only when the button is enabled |
| CreateSafe.CreateSafePage.ReconcileStatus | packages/web/src/app/onboarding/create-safe/page.tsx:52-104 | the new state is `AfterStatus` of the old one, and only a persisting success adds a call |
| CreateSafe.CreateSafePage.CheckWallet | packages/web/src/app/onboarding/create-safe/page.tsx:107-114 | the wallet effect's new state, with the invariant kept |
| KycForm.DefaultNames | packages/web/src/components/settings/align-integration/align-kyc-form.tsx:45-56 | without a name both defaults are empty; a name without a space is all first name with an empty last name; otherwise the first name is the text before the first space and the last name all the text after it |
| KycForm.NameSplitAtFirstSpace | packages/web/src/components/settings/align-integration/align-kyc-form.tsx:49-51 | for a name with a space, first name, a space and last name give back the name, and the first name holds no space |
| KycForm.DefaultValues | packages/web/src/components/settings/align-integration/align-kyc-form.tsx:60-65 | the form starts with the default names, business name `''` and account type `individual` |
| KycForm.DefaultsAcceptedIff | packages/web/src/components/settings/align-integration/align-kyc-form.tsx:19-65 | the default values pass the schema exactly when the name has a first space that is neither its first nor its last character |
| KycForm.ParseAccountType | packages/web/src/components/settings/align-integration/align-kyc-form.tsx:23-25 | only `individual` and `corporate` are account types |
| KycForm.SchemaAccepts | packages/web/src/components/settings/align-integration/align-kyc-form.tsx:19-26 | the schema as a predicate: both names at least one character and the account type one of the two; `Validate` states what it means for a form |
| KycForm.IssueMessage | packages/web/src/components/settings/align-integration/align-kyc-form.tsx:20-25 | the message the schema declares for each issue; the enum mismatch has none of its own |
| KycForm.IssueMessagesShown | packages/web/src/components/settings/align-integration/align-kyc-form.tsx:19-26 | for a rejected form, each required-field message is shown exactly when its field is missing, and only the out-of-enum issue has no declared message |
| KycForm.Validate | packages/web/src/components/settings/align-integration/align-kyc-form.tsx:19-26 | a form is accepted exactly when both names are non-empty and the account type is one of the two; the accepted values are the form's; rejected forms list a required-name issue exactly for each empty name, and the required-type issue exactly when the type is absent |
| KycForm.BusinessNameOptional | packages/web/src/components/settings/align-integration/align-kyc-form.tsx:22 | the business name, present or absent, never affects acceptance |
| KycForm.ToMutationInput | packages/web/src/components/settings/align-integration/align-kyc-form.tsx:103-108 | names and account type are copied; the business name is passed exactly when it is non-empty |
| KycForm.MutationInputOfForm | packages/web/src/components/settings/align-integration/align-kyc-form.tsx:103-108 | a validated form's mutation input is its own names and account type, with an empty business name dropped |
| KycForm.SubmitFlagsLifecycle | packages/web/src/components/settings/align-integration/align-kyc-form.tsx:82-114 | one submission raises `isSubmitting` once, first, and every later write lowers it |
| KycForm.KycSubmission.constructor | packages/web/src/components/settings/align-integration/align-kyc-form.tsx:35 | the form starts not submitting, with nothing submitted |
| KycForm.KycSubmission.OnSubmit | packages/web/src/components/settings/align-integration/align-kyc-form.tsx:91-116 | the mutation gets the mapped input once; the parent is told only on success; `isSubmitting` is set, then reset by every callback that runs, and ends false |
| KycForm.KycSubmission.Submit | packages/web/src/components/settings/align-integration/align-kyc-form.tsx:224-226 | while submitting, or for an invalid form, nothing happens; otherwise exactly one submission of the validated values |
| ToolIndicator.StatusText | packages/deep-yield/components/tool-indicator.tsx:142-147 | the text for each state: `Preparing...`, `Processing...`, `Complete` |
| ToolIndicator.StatusTextOf | packages/deep-yield/components/tool-indicator.tsx:142-147 | the text for the state prop as given: only `partial-call` and `call` are matched, so a missing state reads `Complete` like a result |
| ToolIndicator.StatusTextDistinct | packages/deep-yield/components/tool-indicator.tsx:142-147 | the three states have three different status texts |
| ToolIndicator.StateOrDefault | packages/deep-yield/components/tool-indicator.tsx:57-60 | a missing state falls back to `call`, at opacity 90 |
| ToolIndicator.OpacityFollowsProgress | packages/deep-yield/components/tool-indicator.tsx:51-55 | opacity increases strictly with progress (60, 90, 100), the state class names that opacity, and only a result is fully opaque |
| ToolIndicator.IconFor | packages/deep-yield/components/tool-indicator.tsx:65-97 | the icon switch; `UnknownToolFallbacks`, `IconSizes`, `GlyphOwnersExact` and `SharedIcons` state its properties |
| ToolIndicator.Description | packages/deep-yield/components/tool-indicator.tsx:100-133 | the description switch; `UnknownToolFallbacks` states when the fallback is used |
| ToolIndicator.ToolVariant | packages/deep-yield/components/tool-indicator.tsx:34-49 | the tool column of the style table; `StyleTableMatchesLookups` states its keys |
| ToolIndicator.ToolStyle | packages/deep-yield/components/tool-indicator.tsx:30-62 | the variant lookup with the name as key and `default` for an empty name; `ToolStyleFallback` states the result |
| ToolIndicator.UnknownToolFallbacks | packages/deep-yield/components/tool-indicator.tsx:65-133 | a name gets the sparkles icon, and the description `Using a tool`, exactly when it is not one of the 14 tools |
| ToolIndicator.IconSizes | packages/deep-yield/components/tool-indicator.tsx:65-97 | only the three research tools size their icon with the `size-4` class; every other icon, the fallback included, is 14 pixels |
| ToolIndicator.GlyphOwnersExact | packages/deep-yield/components/tool-indicator.tsx:65-97 | the icon switch agrees with the glyph-to-tools reference table |
| ToolIndicator.SharedIcons | packages/deep-yield/components/tool-indicator.tsx:65-97 | two different names share a non-sparkles glyph exactly for the document pair, the swap/bridge pair and the token-info/chain-TVL pair |
| ToolIndicator.StyleTableMatchesLookups | packages/deep-yield/components/tool-indicator.tsx:34-49 | the style table's keys are exactly the 14 tools and `default`, and each of those tools has its own icon and description |
| ToolIndicator.ToolStyleFallback | packages/deep-yield/components/tool-indicator.tsx:30-60 | an empty name takes the gray default; any other name takes its own entry, which exists exactly for the 14 tools and `default` |
| ToolIndicator.Render | packages/deep-yield/components/tool-indicator.tsx:136-169 | the chip shows `toolName • statusText` with the status text of the state as given, the tool's icon, description and style, and the class of the state, with a missing state taking the `call` class; it fades in unless `animate` is `false` |
| ToolIndicator.LabelShowsToolAndStatus | packages/deep-yield/components/tool-indicator.tsx:160 | the label starts with the tool name, then the bullet separator, and ends with the status text |
| ToolIndicator.MissingStateShowsComplete | packages/deep-yield/components/tool-indicator.tsx:57-60 | a chip without a state has the `call` opacity but reads `Complete`, so opacity and text disagree; with a state given the label reads `Complete` exactly at full opacity |
| ToolIndicator.RenderAll | packages/deep-yield/components/tool-indicator.tsx:187-193 | one chip per invocation, in order |
| ToolIndicator.Group | packages/deep-yield/components/tool-indicator.tsx:181-195 | nothing for a missing or empty list; otherwise one chip per invocation, in order, keyed by its call id, showing its name, state, icon and description, with the entrance animation |
| ToolIndicator.RenderAllAppend | packages/deep-yield/components/tool-indicator.tsx:187-193 | rendering a concatenated list concatenates the rows |

## Left out

- HTTP, the Safe Transaction Service, the Gelato relay SDK, the Privy wallet and the tRPC plumbing are not modelled. Their answers are parameters: `ServiceResponse`, the `sponsoredCall` function, and the outcomes in `CreateSafeEnv`.
- `getTaskStatus` is a pass-through to the relay and is not modelled. The status it returns is a parameter of the status effect.
- The signature's cryptography is not modelled. Only the domain, types and message handed to the wallet are.
- Polling is not modelled: `refetchInterval` and the timer. The `clearInterval` branches are dead code, because `pollingInterval` is only ever set to `null`.
- React's re-rendering is not modelled. The status effect can re-run while the same `ExecSuccess` status is held, for example when `deployedSafeAddress` or the mutation object changes identity, so persistence is not guaranteed to happen only once. `PendingThenSuccess` covers one effect run per observed status.
- CreateSafe.Run: an `eth_chainId` rejection hangs the awaiting promise forever. It is modelled as the `ChainUnverified` exit, whose state is the state the page is left in.
- `parseInt(result, 16)` is not modelled; the verified chain id is an integer parameter. `BigInt(...)` of the relay value is trusted; a value that `BigInt` rejects would throw into the outer catch, which is not modelled.
- The signed message's `value` is kept as its decimal string.
- On the page, the deployment payload is an outcome of the mutation rather than a call to `SafeRouter.GetDeploymentPayload`. `ServedPayloadAttempt` connects the two.
- `new Date(executionDate).getTime()` is the parameter `parseDate`.
- SafeRouter.GetTransactions: a reply whose JSON does not parse is modelled as `FetchFailed`, which takes the same catch. A truthy `results` that is not an array is not modelled.
- `getDeploymentPayload`'s `safeAccountConfig`, `saltNonce` and `baseRpcUrl` are never used, and its catch cannot be reached by string concatenation. None of them is modelled.
- A relay error is re-thrown unchanged; RelayError keeps only its message.
- Rendering is not modelled: JSX, styling, the `framer-motion` animation values, toasts, `localStorage` writes, query invalidation and navigation. Only the values the model shows are kept: classes, texts and icons.
- Zod's and class-variance-authority's internals are not modelled. Only their declarations are: `min(1)`, the enum, the optional field and the variant tables. Zod's wording for an out-of-enum account type is not modelled.
- KycForm.DefaultNames assumes `user.name` is a string or absent. A truthy non-string would throw into the silent `catch` and leave both defaults empty.
- String length uses Dafny characters rather than UTF-16 code units.
- KycForm.KycSubmission.Submit: concurrent presses are not modelled, only sequential ones. The double-submit guard is the button's `disabled` attribute.
- ToolIndicator.ToolStyle: variant keys that Object.prototype inherits, such as `constructor`, are treated like any other unlisted name.
- CreateSafe.CreateSafePage.HandleCreateSafe / CreateSafe.CreateSafePage.PressStart: an attempt runs to its exit in one step, so no press, status update or effect can come between its awaits. Repeated presses are modelled only after an attempt has settled; during an attempt the page relies on the re-rendered `disabled` attribute, which this model does not interleave.
- CreateSafe.PersistFailedMessage: `None` stands for an absent `error.message`, shown as `undefined`. A `null` message, which the template would show as `null`, is not distinguished.
- KycForm.BusinessNameOptional: `None` stands for an absent business name. Zod's `.optional()` rejects `null`, which this model does not distinguish from absence, so it accepts a `null` business name that the schema rejects.
