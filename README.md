# Picture Pros sales site: the decision logic, modelled in Dafny

The site sells AI-generated sports portraits. Almost all of it is page
markup and calls to outside services: the portrait generator, the identity
provider and the payment processor. This project models the four pieces of
the site that make decisions of their own:

- **The portrait-creation wizard** (`create_wizard.dfy`, module
  `CreateWizard`). It has four steps: upload, sport, generating and result.
  Its state is the step, the uploaded photo, the chosen sport, the generated
  portraits and an error message. Its handlers cover choosing or dropping a
  file, picking a sport, pressing generate, removing the photo and starting
  over. The indicator at the top shows which step is active and which are
  done. The class invariant `Valid()` says that the result step always holds
  exactly one non-empty portrait and no error, and that the generating step
  never shows an error. `Offers` says which controls each step puts on
  screen, and `Press` runs the handler of an offered control.
- **The pricing section** (`pricing.dfy`, module `Pricing`). It holds the
  built-in plan list and the builder that turns the admin settings into a
  free card followed by one card per paid tier. The builder formats prices
  as dollars and cents and picks each card's features and labels.
  `PriceRoundTrip` proves that a card's displayed price reads back as the
  tier's price.
- **The sign-in dialog** (`sign_in_modal.dfy`, module `SignIn`). It covers
  the blank-field check, sign-in versus sign-up, the ordered translation of
  provider error codes into user messages, the busy flag and the mode
  switches. The email translation is written as the source's chain of
  tests. `EmailErrorTextFollowsRules` proves it equal to first-match over an
  ordered rule table.
- **The account dropdown** (`account_dropdown.dfy`, module
  `AccountDropdown`). It covers the avatar initial, the credits badge and
  count, what is rendered, and the open/closed state.

`text.dfy` (module `Text`) reproduces the JavaScript built-ins these pieces
use:
- the truthiness of a nullable string;
- `trim`, `includes`, `startsWith` and `padStart`;
- decimal rendering of integers (below 10^21, where JavaScript switches to exponent form), together with a parser that inverts it;
- ASCII `toUpperCase`.

Each call to an outside service is a parameter of the handler that makes
it: `GenOutcome` for the portrait generator and `AuthOutcome` for the
identity provider. The handler returns the request it made, or `NoCall` /
`None` when it made none. Each handler runs as one atomic step. Where the
source suspends on a call, the handler is built from two half-steps, and
their contracts state the state in between:
- `BeginGenerating` and `FinishGeneration` in the wizard;
- `AttemptStarted` and `AttemptSettled` in the sign-in dialog.

## Model

| member | source | states |
|---|---|---|
| CreateWizard.InitialStep | app/create/page.tsx:23-24 | the first step is upload exactly when the page was opened with a non-empty sport parameter, otherwise sport |
| CreateWizard.Wizard.constructor | app/create/page.tsx:22-29 | starts on `InitialStep`, with the chosen sport equal to the parameter, no photo, no portraits, no error, and the invariant established |
| CreateWizard.FailureMessage | app/create/page.tsx:47-53 | a failed call always leaves a non-empty message: the service's own error text when it is non-empty, "Generation failed. Please try again." otherwise, and "Something went wrong. Please try again." for an exception |
| CreateWizard.Wizard.BeginGenerating | app/create/page.tsx:40-41 | entering the generating step clears the error and changes nothing else |
| CreateWizard.Wizard.FinishGeneration | app/create/page.tsx:43-54 | ok with non-empty data gives the result step with exactly `[data]` as portraits; any other outcome gives the failure message and the caller's return step; the invariant is kept |
| CreateWizard.Wizard.HandleFile | app/create/page.tsx:32-60 | a non-image file changes nothing and calls nothing; an image is stored; without a sport it moves to the sport step without calling generation; with a sport it requests generation of that photo and sport and settles, returning to upload on failure |
| CreateWizard.Wizard.HandleDrop | app/create/page.tsx:62-70 | an empty drop changes nothing; otherwise the first file is handled as a chosen file: a non-image changes nothing; an image is stored; without a sport the wizard moves to the sport step with no call; with a sport that photo and sport are sent and the call settles, returning to upload on failure |
| CreateWizard.Wizard.SelectSport | app/create/page.tsx:245-248 | a sport button sets the chosen sport to that option's id and changes nothing else |
| CreateWizard.Wizard.HandleGenerate | app/create/page.tsx:72-89 | without both a photo and a sport nothing changes and nothing is called; otherwise it requests generation of them and settles, returning to the sport step on failure |
| CreateWizard.Wizard.HandleGenerateIntended | app/create/page.tsx:72-73 | corrected generate button: with a sport but no photo it moves to the upload step; otherwise the same as `HandleGenerate` |
| CreateWizard.Wizard.Offers | app/create/page.tsx:132-353 | which controls are on screen: file input and drop area on upload; sport buttons, generate (only with a sport chosen) and remove (only over a photo) on sport; "Create Another Portrait" on result; nothing while generating |
| CreateWizard.Wizard.Press | app/create/page.tsx:152-350 | pressing an offered control has its handler's effect and keeps the invariant: a chosen or first dropped file as `HandleFile` (an empty drop does nothing), a sport button as `SelectSport`, generate as `HandleGenerate`, remove as `RemovePhoto`, "Create Another Portrait" as `Reset`; so on the sport step with no photo every offered control leaves the wizard there, still without a photo, and makes no request |
| CreateWizard.NoSportParamDeadEnd | app/create/page.tsx:217-282 | opened without a sport parameter, any sequence of presses leaves the wizard on the sport step with no photo, and none of them makes a request |
| CreateWizard.NoSportParamReachesGeneration | app/create/page.tsx:24 | with the corrected button the same visitor reaches upload, and the image they choose is sent with the sport they picked |
| CreateWizard.Wizard.RemovePhoto | app/create/page.tsx:232 | removing the photo clears only the photo and returns to the upload step |
| CreateWizard.Wizard.Reset | app/create/page.tsx:350 | "Create Another Portrait" returns to upload with no photo, sport or portraits, leaving the error as it was |
| CreateWizard.IsActive | app/create/page.tsx:104 | a pill is active when it is the current step, and the result pill also while generating; characterised by `IndicatorIsProgress` and `IndicatorRules` |
| CreateWizard.IsDone | app/create/page.tsx:105-107 | which pills carry a check mark; characterised by `IndicatorIsProgress` and `IndicatorRules` |
| CreateWizard.IndicatorIsProgress | app/create/page.tsx:102-107 | the indicator is a progress bar: exactly one of its three pills is active, and the done pills are exactly those to its left |
| CreateWizard.IndicatorRules | app/create/page.tsx:104-107 | upload is done iff the step is not upload; sport is done iff generating or result; result is never done; result is active iff the step is result or generating |
| Pricing.DefaultPricing | app/page.tsx:51-79 | the built-in list has three cards, the free "$0" card first, and only the middle card is highlighted |
| Pricing.FreePlan | app/page.tsx:84-92 | the free card; its properties are stated by `FreePlanShape` |
| Pricing.PriceText | app/page.tsx:95-99 | "$" and the whole dollars; read back by `DollarsRoundTrip` and `PriceRoundTrip` |
| Pricing.PeriodText | app/page.tsx:96-100 | "" or "." and two cent digits; read back by `CentsTextRoundTrip` and `PriceRoundTrip` |
| Pricing.TierFeatures | app/page.tsx:102-108 | a tier's feature list; its shape is stated by `TierFeaturesShape` |
| Pricing.PaidPlan | app/page.tsx:97-111 | the card of paid tier i; its labels are stated by `PaidPlanLabels`, its price by `PriceRoundTrip`, its features by `TierFeaturesShape` |
| Pricing.PushCards | app/page.tsx:94-112 | appending a card per tier leaves the list already built untouched and puts the card of tier k, numbered k, at position k after it, in the tiers' order |
| Pricing.BuildPricingFromSettings | app/page.tsx:81-114 | the output has exactly one more card than there are paid tiers: the free card first, then card i+1 built from tier i, with the tiers in input order |
| Pricing.PriceRoundTrip | app/page.tsx:95-100 | a card's price and period text read back as the tier's price in cents, so the dollar/cent formatting loses nothing |
| Pricing.DollarsRoundTrip | app/page.tsx:95-99 | the price text is "$" followed by digits that read back as the whole dollars |
| Pricing.CentsTextRoundTrip | app/page.tsx:96-100 | the period is "" for a whole-dollar price, otherwise "." followed by two digits that read back as the cents |
| Pricing.CentsRoundTrip | app/page.tsx:100 | cents from 1 to 99, zero-padded, are exactly two digits that read back as the cents |
| Pricing.PeriodEmptyIff | app/page.tsx:100 | the period is empty exactly when the cents are 0 |
| Pricing.TierFeaturesShape | app/page.tsx:102-108 | a tier's features start with "<portraits> AI portraits" and end with "Priority generation"; "Print-ready files" is among them iff portraits ≥ 10; so there are 5 features or 4 |
| Pricing.PaidPlanLabels | app/page.tsx:98-110 | the name is copied; highlight equals featured; the CTA is "Get Started" exactly on highlighted cards and "Go Pro" otherwise; the description is "Most popular for families" for the first tier and "For the superfan family" for every later one |
| Pricing.FreePlanShape | app/page.tsx:84-92 | the free card costs "$0" with no period; it reads back as 0 cents; it is not highlighted; its first feature is the free-portrait count followed by " free AI portraits" |
| Pricing.DefaultIsNotBuilt | app/page.tsx:51-79 | the built-in list is not the output of the builder for any settings, so once `SettingsLoaded` replaces it the page always shows different cards: the built-in "Multiple poses" feature never survives a load |
| Pricing.Home.constructor | app/page.tsx:117 | the page starts with the built-in list |
| Pricing.Home.SettingsLoaded | app/page.tsx:119-122 | a null settings result keeps the current list; settings replace it with the builder's output |
| Text.Trim | components/SignInModal.tsx:39 | the trimmed string is no longer than the input and neither starts nor ends with white space |
| Text.StartsWith | app/create/page.tsx:33 | `startsWith`: the string begins with the prefix |
| Text.TrimEmptyIff | components/SignInModal.tsx:39 | a string trims to "" exactly when it is all white space |
| Text.TrimStart | components/SignInModal.tsx:39 | drops exactly the leading white space |
| Text.TrimEnd | components/SignInModal.tsx:39 | drops exactly the trailing white space |
| Text.Contains | components/SignInModal.tsx:53-58 | `includes` is true exactly when the substring occurs at some position |
| Text.NatToString | app/page.tsx:99 | decimal digits only, with no leading zero except for 0, and one digit exactly below 10 |
| Text.ParseNatToString | app/page.tsx:99 | the decimal rendering reads back as the number |
| Text.ParseLeadingZero | app/page.tsx:100 | the zero that `padStart` adds does not change the value read back |
| Text.IntToString | app/page.tsx:89 | a template literal of an integer starts with "-" exactly when it is negative |
| Text.ParseIntToString | app/page.tsx:103 | the rendering of an integer reads back as that integer |
| Text.PadStart | app/page.tsx:100 | the result is at least the requested width, ends with the input, and is fill before it |
| Text.ToUpperAscii | components/AccountDropdown.tsx:28 | the result is never a lower-case letter; lower-case letters move up by 32 and everything else is unchanged |
| SignIn.CredentialsEntered | components/SignInModal.tsx:39 | the negation of the blank-field test; characterised by `CredentialsEnteredIff` |
| SignIn.ThrownMessage | components/SignInModal.tsx:52 | an `Error`'s message, or the fallback text for any other thrown value (the same rule with its own fallback at line 28) |
| SignIn.EmailErrorText | components/SignInModal.tsx:52-58 | the message shown is the provider's own text or one of the five fixed messages, and a wrong-password or invalid-credential code always gives "Incorrect email or password"; equal to the rule table by `EmailErrorTextFollowsRules` |
| SignIn.GoogleErrorText | components/SignInModal.tsx:29-30 | the Google error message; equal to its rule table by `GoogleErrorTextFollowsRules` |
| SignIn.CredentialsEnteredIff | components/SignInModal.tsx:39 | the form may be sent exactly when neither the email nor the password is all white space |
| SignIn.FirstMatch | components/SignInModal.tsx:53-58 | gives no index exactly when no rule matches; otherwise the index of a matching rule with no earlier rule matching |
| SignIn.TranslateIsFirstMatch | components/SignInModal.tsx:53-58 | translating with an ordered table gives the text of the rule FirstMatch finds, and the error text itself when no rule matches |
| SignIn.EmailErrorTextFollowsRules | components/SignInModal.tsx:53-58 | the email error translation is first-match over the ordered table: wrong-password or invalid-credential, then user-not-found, email-already-in-use, weak-password, invalid-email; an error text with none of these is shown unchanged |
| SignIn.GoogleErrorTextFollowsRules | components/SignInModal.tsx:28-30 | a Google error containing "popup-closed" becomes "Sign-in popup was closed"; any other error text is shown unchanged |
| SignIn.SignInModal.constructor | components/SignInModal.tsx:13-17 | starts in sign-in mode with empty fields, no error, not busy |
| SignIn.SignInModal.EditEmail | components/SignInModal.tsx:131 | typing sets the email only |
| SignIn.SignInModal.EditPassword | components/SignInModal.tsx:138 | typing sets the password only |
| SignIn.SignInModal.SwitchToSignUp | components/SignInModal.tsx:158 | switches to sign-up mode and clears the error |
| SignIn.SignInModal.SwitchToSignIn | components/SignInModal.tsx:162 | switches to sign-in mode and clears the error |
| SignIn.SignInModal.AttemptStarted | components/SignInModal.tsx:43 | the dialog is busy while a call is outstanding |
| SignIn.SignInModal.AttemptSettled | components/SignInModal.tsx:59-61 | after the call, on success or failure, the dialog is not busy; on failure its message is shown |
| SignIn.SignInModal.HandleEmail | components/SignInModal.tsx:36-62 | blank fields show "Please enter email and password", make no call and leave the busy flag as it was; otherwise sign-up is called in sign-up mode and sign-in in any other mode, with the fields as typed; success is reported once; a failure shows the translated message ("Authentication failed" for a non-Error value); the dialog ends not busy |
| SignIn.SignInModal.HandleGoogle | components/SignInModal.tsx:21-34 | clears the error and opens the popup; success is reported once; a failure shows its translated message ("Google sign-in failed" for a non-Error value); the dialog ends not busy |
| AccountDropdown.AvatarInitial | components/AccountDropdown.tsx:28 | the upper-cased first character of a non-empty display name, else of a non-empty email, else "U" |
| AccountDropdown.CreditsBadge | components/AccountDropdown.tsx:46-50 | the badge is shown exactly when credits are known, and it shows them |
| AccountDropdown.CreditsShown | components/AccountDropdown.tsx:70 | the dropdown shows the credits, or 0 when they are unknown |
| AccountDropdown.Render | components/AccountDropdown.tsx:26-93 | nothing is rendered without a user; the menu is present exactly while open; the menu's title is the display name when it is non-empty and "My Account" otherwise, and its email is the user's email; the Buy button is present exactly when a callback was given; the avatar is the photo exactly when the photo URL is non-empty, and then shows that URL; otherwise it is the initial |
| AccountDropdown.Dropdown.constructor | components/AccountDropdown.tsx:14 | the dropdown starts closed |
| AccountDropdown.Dropdown.ToggleFromAvatar | components/AccountDropdown.tsx:34 | the avatar button toggles the dropdown |
| AccountDropdown.Dropdown.DocumentMouseDown | components/AccountDropdown.tsx:18-24 | a press outside the mounted component closes the dropdown; any other press leaves it as it was |
| AccountDropdown.Dropdown.ClickBuyCredits | components/AccountDropdown.tsx:72-74 | closes the dropdown, then triggers the buy-credits callback |
| AccountDropdown.Dropdown.ClickSignOut | components/AccountDropdown.tsx:84 | closes the dropdown, then signs out |

## Left out

- The generation request, the settings request, checkout, and sign-in and sign-up with the identity provider are left out. These are network calls and SDK calls. Their results are handler parameters (`GenOutcome`, `AuthOutcome`, the `Option<SalesSettings>` given to `SettingsLoaded`). The HTTP details inside them are not modelled (how a non-2xx response is turned into an error text, JSON parsing, bearer tokens).
- React rendering, the browser's file reader and the awaits inside the handlers are not modelled. Each handler runs as one atomic step. The file reader's data URL is part of `ImageFile`. Nothing interleaves while a call is pending, so the stale closure that `useCallback` keeps over the chosen sport never shows.
- The `disabled` attribute of the buttons while the sign-in dialog is busy is left out: with atomic handlers, no second attempt can start while one is pending.
- The wizard's drag-over highlight and the sports-option lookup for the badge on the upload step are left out. They are only presentation.
- `SignIn.SignInModal.HandleEmail`: the page's `onSuccess` callback runs inside the `try` (components/SignInModal.tsx:50), so an exception it throws would be shown as an error. The model treats the callback as not throwing: a successful call always leaves no error.
- `SignIn.SignInModal.HandleGoogle`: the same holds for its `onSuccess` call (components/SignInModal.tsx:26).
- `SignIn.SignInModal`: the `open` prop, which renders nothing when false, and the embedded-webview branch that replaces the Google button with "Open in Browser" are left out. Neither changes the dialog's state.
- `Pricing.PriceRoundTrip`: prices are whole numbers of cents, with dollars = p / 100 and cents = p % 100. The source computes them from a floating-point dollar amount with `Math.floor` and `Math.round`, so its rounding artefacts (for example cents rounding up to 100) and negative prices are not captured.
- `Text.NatToString`: the rendering is plain decimal digits for every number. JavaScript renders integers of 10^21 and above in exponent form ("1e+21"), which is not modelled.
- `Text.IntToString`: the same exponent form for integers whose magnitude is 10^21 or more is not modelled. Also, portrait counts are integers. A fractional count, which JavaScript would print with a decimal point, is not modelled.
- `Text.ToUpperAscii`: upper-casing covers ASCII letters only, not full Unicode case mapping.
- `Text.Contains`, `Text.TrimStart` and the other string helpers work on characters (code points). JavaScript works on UTF-16 code units. The two differ only for characters outside the Basic Multilingual Plane.
- The settings' `enabledSports` and `printPricing` are part of `SalesSettings` but are not used by the builder.
- Static pages, metadata, generated share images and the fade-in effect are left out, as are the API route proxies. None of them makes a decision. The modelled pages do no client-side image downscaling or text compositing, so neither is modelled.
- The code has no image normalizer, compositor or credit gate: the wizard sends the data URL as read and shows the returned image as is.

## Findings

| source | as written | input that shows it | evidently intended | confidence | as-written member | corrected member |
|---|---|---|---|---|---|---|
| app/create/page.tsx:24, 72-73 | Without a sport parameter the wizard starts on the sport step with no photo. There the generate button returns without doing anything when there is no photo, and the step has no other way to reach the upload step. | Open `/create` with no query, as four home-page links do (app/page.tsx:137, 171, 308, 331). Press a sport, then "Generate Portrait". The wizard stays on the sport step. The sport step has no file input, and its remove button, which leads to upload, appears only over a photo, so no control it shows ever reaches the upload step. | Pressing generate with a sport but no photo leads to the upload step. The photo chosen there is then sent at once with the chosen sport. | medium: not executed; the dead end follows from the handlers, while the exact fix is a guess (starting on the upload step would also work) | CreateWizard.NoSportParamDeadEnd | CreateWizard.NoSportParamReachesGeneration |
