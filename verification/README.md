# SpringBokERP mobile app: a Dafny model of its logic

SpringBokERP's mobile client is a React-Native shell around four small,
deterministic pieces of logic. This project models them in Dafny and proves
what the code promises about them:

- **the authentication slice** (`store/slices/authSlice.ts`): the state record
  `{user, token, isAuthenticated, isLoading, error}`, its three plain reducers,
  the pending/fulfilled/rejected case of each of the four thunks
  (`signUp`, `signIn`, `signOut`, `getSession`), and how each thunk turns its
  service call's outcome into an action payload or a rejection message. The
  root navigator of `navigation/AppNavigator.tsx` reads `isAuthenticated`, and
  that navigator file also holds the route-to-icon table of the tab bar;
- **the form validators** of the sign-in and registration screens: the
  `validateInputs` functions with their per-field error messages, the
  e-mail pattern `^\S+@\S+\.\S+$`, and the guards of `handleLogin` and
  `handleRegister`;
- **the file-name helpers** of `utils/helpers.ts`: `getFileExtension`,
  `getMimeType` and `createUniqueFileName`;
- **the glass design system** (`design-system.js`) and the style expressions
  of the `Button`, `Card`, `Input` and `Alert` components. A style is a finite
  map from property to value. Object spread and style arrays both override
  left to right, and falsy entries of an array are skipped.

Modules, one per source file, plus three shared ones:

| module | file | models |
|---|---|---|
| `Wrappers` | wrappers.dfy | `Option` (JavaScript `null`/`undefined` versus a value) |
| `JsString` | js_string.dfy | the `String.prototype` operations the code calls, and the `\s` character class |
| `Style` | style.dfy | style maps, spread (`Merge`), style arrays (`Flatten`) |
| `Constants` | constants.dfy | `ROUTES`, `TAB_SCREENS` and `ERROR_MESSAGES` of `utils/constants.ts` |
| `DesignSystem` | design_system.dfy | `design-system.js` |
| `Button`, `Card`, `Input`, `Alert` | button.dfy, card.dfy, input.dfy, alert.dfy | `components/common/*.tsx` |
| `AuthSlice` | auth_slice.dfy | `store/slices/authSlice.ts` |
| `Validation` | validation.dfy | the field rules shared by both screens |
| `LoginScreen`, `RegisterScreen` | login_screen.dfy, register_screen.dfy | `screens/*.tsx` |
| `Helpers` | helpers.dfy | `utils/helpers.ts` |
| `AppNavigator` | app_navigator.dfy | `navigation/AppNavigator.tsx` |

The code works by changing state in three places, and the model keeps that
form there:

- The slice's reducers assign draft fields one at a time. `AuthSlice.AuthStore`
  is a class with those five fields and one method per action. Each method is
  proved to produce `Reduce(old(State()), action)`. `Reduce` is the pure
  specification, and the invariant and frame properties are proved about it.
- The two `validateInputs` functions set a local `isValid` flag and call the
  error setters in sequence. `LoginForm` and `RegisterForm` are classes holding
  the screens' `useState` fields. Their methods are proved to set each error
  to the pure rule of `Validation`, and to return true exactly when the form is
  valid.
- `Input` keeps `isFocused` and `isPasswordVisible` in component state.
  `Input.InputState` holds both, and its methods are the focus, blur and eye
  handlers.

The rest of the code is pure and is modelled as functions and lemmas.

Outside effects are parameters. `createUniqueFileName` takes the clock
reading as an argument. A thunk's service call is represented only by its
outcome (`AuthSlice.Outcome`): it resolved with a payload, or it threw an
error that may carry a message.

## Model

| member | source | states |
|---|---|---|
| JsString.LeadingWs | screens/LoginScreen.tsx:30 | the count of leading characters `trim()` strips: all of them whitespace, and the next one is not |
| JsString.TrailingWs | screens/LoginScreen.tsx:30 | the count of trailing characters `trim()` strips: all of them whitespace, and the one before them is not |
| JsString.IsWs | screens/LoginScreen.tsx:30-33 | the whitespace `trim()` strips and `\s` matches never includes '@', '.', a digit or an ASCII letter |
| JsString.TrimStart | screens/LoginScreen.tsx:30 | drops exactly a whitespace prefix: the result is a suffix of the input, everything dropped is whitespace, and the result does not start with whitespace |
| JsString.TrimEnd | screens/LoginScreen.tsx:30 | drops exactly a whitespace suffix: the result is a prefix of the input, everything dropped is whitespace, and the result does not end with whitespace |
| JsString.Trim | screens/LoginScreen.tsx:30 | `trim()` returns a contiguous slice of the input, starting after the leading whitespace and followed only by whitespace; the result neither starts nor ends with whitespace |
| JsString.TrimEmptyIffAllWs | screens/LoginScreen.tsx:30 | `!s.trim()` holds exactly when every character of `s` is whitespace |
| JsString.Utf16Length | screens/LoginScreen.tsx:44 | `length` counts UTF-16 code units: between the number of characters and twice it, and zero only for the empty string |
| JsString.LastIndexOf | utils/helpers.ts:121 | `lastIndexOf` gives -1 exactly when the character is absent; otherwise an index holding it, with none after it |
| JsString.ClampIndex | utils/helpers.ts:121 | a `substring` argument is clamped into `[0, length]`, and a negative one becomes 0 |
| JsString.Substring | utils/helpers.ts:121 | `substring(start, end)` is the slice between the clamped arguments, swapped when `start` is the larger; two non-positive arguments give "" |
| JsString.SubstringNegativeEnd | utils/helpers.ts:121 | a negative end becomes 0 and is swapped below the start, so the result is the prefix up to `start` (the dotless case of `createUniqueFileName`) |
| JsString.SubstringEndPastLength | utils/helpers.ts:121 | an end past the length stops at the end: the suffix from `start` |
| JsString.LowerChar | utils/helpers.ts:88 | `toLowerCase` on one character maps an upper-case ASCII letter to its lower-case letter, leaves every other character alone, and never returns an upper-case letter |
| JsString.ToLower | utils/helpers.ts:88 | `toLowerCase` keeps the length and lower-cases each position |
| JsString.ToLowerIdempotent | utils/helpers.ts:110 | lower-casing twice is lower-casing once |
| JsString.ToLowerKeepsNonLetter | utils/helpers.ts:88 | lower-casing neither adds nor removes a non-letter such as '.' |
| JsString.Split | utils/helpers.ts:86 | `split('.')` yields at least one piece, exactly one when there is no '.', and no piece contains a '.' |
| JsString.Join | utils/helpers.ts:86 | the partner of `split`: a single piece joins to itself, and a join ends with its last piece, preceded by the separator when there are several |
| JsString.SplitJoin | utils/helpers.ts:86 | splitting and joining with the same separator gives back the input |
| Style.When | components/common/Button.tsx:40-41 | `cond && s` in a style array is present exactly when `cond` holds, and is then `s` |
| Style.LastSupplier | components/common/Button.tsx:36-43 | the last entry of a style array that sets a key is present and sets the key, and no later entry sets it |
| Style.FlattenLookup | components/common/Button.tsx:36-43 | a flattened style array has a key exactly when some present entry sets it, and its value is the last such entry's value |
| Style.FlattenAppend | components/common/Button.tsx:36-43 | flattening two arrays joined end to end is the spread of the first's result with the second's |
| Style.MergeIdempotent | components/common/Card.tsx:24 | spreading a fragment that was already spread changes nothing |
| Style.MergeSelf | components/common/Card.tsx:19-24 | spreading a style over itself gives the style (why `default`, which is `[base, base, style]`, is the base) |
| Style.FlattenTriple | components/common/Card.tsx:24 | a three-entry array with a present first entry is the first, then the second if present, then the third if present |
| Style.FlattenAbsent | components/common/Input.tsx:43 | an array whose entries are all falsy flattens to the empty style |
| Style.FlattenPicks | components/common/Input.tsx:56-62 | the entry that sets a key, with no later entry setting it, decides the key |
| Style.FlattenLacks | components/common/Button.tsx:36-43 | a key no entry sets is absent from the result |
| Style.Merge | components/common/Card.tsx:19-24 | `{...a, ...b}` has the keys of both; a key of `b` takes `b`'s value and every other key keeps `a`'s |
| Style.Flatten | components/common/Button.tsx:36-43 | a present last entry of a style array overrides every earlier entry on each key it sets (FlattenLookup gives the full rule) |
| DesignSystem.ParseTone | design-system.js:11-63 | a name denotes a state of `colors` only if it is that state's name, and a name that denotes none differs from every state's name |
| DesignSystem.ToneColors | design-system.js:11-63 | each state's glass tint and border colour are its main colour at alpha 0.25 and 0.4 |
| DesignSystem.GlassShadow | design-system.js:250-293 | the shadow token a glass level spreads carries the glass shadow colour and a positive elevation (GlassShadowKeys gives its five keys) |
| DesignSystem.GlassFace | design-system.js:249-293 | the keys a level writes before spreading its shadow; it has no contract of its own, and GlassLevelComplete, GlassKeysBounded and GlassBackgroundFromFace state what it contributes |
| DesignSystem.Glass | design-system.js:249-293 | `{...face, ...shadow}` for a level; it has no contract of its own, and GlassEffectsCarryShadow, GlassLevelComplete, GlassColoured and GlassKeysBounded state what each level holds |
| DesignSystem.Recoloured | design-system.js:310-350 | the two colours written after the spread are the ones the result holds (RecolourFacts gives the rest) |
| DesignSystem.RecolourFacts | design-system.js:310-350 | `{...level, backgroundColor, borderColor}` has the level's keys plus the two colours, holds the new colours, and keeps every other key of the level |
| DesignSystem.RecolourKeepsKeys | design-system.js:310-350 | recolouring a level that already sets both colours keeps its key set |
| DesignSystem.ParseCardVariant | design-system.js:404-425 | each of the four variant names is recognised, and only that name |
| DesignSystem.CardVariant | design-system.js:404-425 | `cardStyles.variants[name]` is defined exactly for the four variant names, and is then that variant's fragment |
| DesignSystem.AlertVariant | design-system.js:675-699 | `alertStyles.variants[name]` is defined exactly for success, warning, error and info |
| DesignSystem.GlassShadowKeys | design-system.js:190-247 | each shadow token a glass level spreads sets exactly the five shadow keys |
| DesignSystem.GlassEffectsCarryShadow | design-system.js:249-293 | every glass level takes all five shadow keys from the shadow it spreads last (subtle from sm, medium from md, strong from lg, frosted from md, blurred from lg) |
| DesignSystem.GlassLevelComplete | design-system.js:249-293 | every glass level sets `backgroundColor`, `borderColor`, `borderRadius` and the five shadow keys |
| DesignSystem.GlassColoured | design-system.js:249-293 | every glass level sets both colours that a recolouring replaces |
| DesignSystem.GlassLacksOpacity | design-system.js:249-293 | no glass level sets `opacity` |
| DesignSystem.GlassLacksPadding | design-system.js:249-293 | no glass level sets `padding` |
| DesignSystem.GlassKeysBounded | design-system.js:249-293 | a glass level sets only colour, border, radius, blur and shadow keys |
| DesignSystem.GlassBackgroundFromFace | design-system.js:249-293 | a level's background is the one it writes itself, because the shadow spread after it has no background |
| DesignSystem.GlassTintIsBackground | design-system.js:249-293 | the background of each level is its listed tint |
| DesignSystem.GlassBackgroundsDistinct | design-system.js:249-293 | no two glass levels share a background |
| DesignSystem.GlassDepthIncreasing | design-system.js:250-272 | from subtle through medium to strong, both elevation and corner radius strictly increase |
| DesignSystem.StateButtonIsRecolouredMedium | design-system.js:310-344 | a state button variant (primary among them) is the medium level with only `backgroundColor` and `borderColor` replaced by its own state's glass and border colours |
| DesignSystem.GhostButtonIsRecolouredSubtle | design-system.js:346-350 | the ghost button is the subtle level with only its two colours replaced |
| DesignSystem.StepwiseGivesStrictlyIncreasing | design-system.js:144-159 | a scale whose every entry exceeds the one before it is strictly increasing along its declaration order |
| DesignSystem.SpacingScaleIncreasing | design-system.js:144-159 | the `spacing` scale strictly increases in declaration order |
| DesignSystem.RadiusScaleIncreasing | design-system.js:163-172 | the `borders.radius` scale strictly increases in declaration order |
| DesignSystem.ButtonSizeKeys | design-system.js:354-384 | every button size sets exactly `paddingVertical`, `paddingHorizontal` and `borderRadius` |
| DesignSystem.ButtonSizesIncreasing | design-system.js:354-384 | a later size, from xs to xl, is strictly larger in both paddings and in its corner radius |
| DesignSystem.ButtonMdSizeIsBase | design-system.js:299-384 | the `md` size restates the base's paddings and radius, so spreading it over the base changes nothing |
| DesignSystem.CardBaseIsMediumGlass | design-system.js:397-402 | the card base is the medium level, kept whole, plus padding (md) and two margins |
| DesignSystem.CardFlatFaintShadow | design-system.js:410-413 | the flat card is the subtle level with its shadow opacity lowered from 0.23 to 0.1 and nothing else changed |
| DesignSystem.InputBaseOverridesGlassBackground | design-system.js:430-438 | the input base takes its background from the later literal (0.08), not from the subtle level, and every other key of the subtle level survives |
| DesignSystem.InputBaseColours | design-system.js:430-438 | at rest the input shows the glass border colour and the 0.08 background |
| DesignSystem.AlertContainerFromStrong | design-system.js:665-673 | the alert container keeps the strong level's overlay background and its regular border width (2) |
| DesignSystem.AlertVariantUsesOwnState | design-system.js:675-699 | each alert variant sets its own state's glass background and border colour, and a thick left border of 4 |
| DesignSystem.ButtonVariantKeys | design-system.js:309-351 | every button variant sets both colours and no opacity |
| DesignSystem.ButtonVariantStyle | design-system.js:309-351 | a state variant shows its own state's glass tint as background and that state's border colour |
| DesignSystem.ButtonSizeStyle | design-system.js:354-384 | each size sets exactly the two paddings and the corner radius |
| DesignSystem.CardVariantStyle | design-system.js:404-425 | the keys a card variant writes after its glass level hold: raised and frosted pad by `lg`, flat lowers the shadow opacity to 0.1, highlight has the primary border colour and a thick left border |
| Button.StyleArray | components/common/Button.tsx:36-43 | the touchable's style array is `[base, variant, size, fullWidth?, disabled?, style]`; each optional entry is present exactly when its flag is set, and is then `{width: '100%'}` and `{opacity: 0.6}` respectively |
| Button.SizeEntryWins | components/common/Button.tsx:38-39 | a key the size sets, and no later entry sets, takes the size's value |
| Button.VariantEntryWins | components/common/Button.tsx:38-39 | a key the variant sets, and neither the size nor a later entry sets, takes the variant's value |
| Button.OpacityEntry | components/common/Button.tsx:41 | when no fragment sets an opacity, the result has one exactly when disabled, and it is 0.6 |
| Button.Render | components/common/Button.tsx:31-58 | touch is off exactly when disabled or loading; the spinner (white, `marginHorizontal` sm) shows exactly while loading, and otherwise the title with `[text, textStyle]` |
| Button.DefaultsArePrimaryMd | components/common/Button.tsx:22-23 | omitting variant and size renders the same as `primary` and `md` |
| Button.SizeDecidesShape | components/common/Button.tsx:38-39 | without a caller value, both paddings and the corner radius come from the size, not the variant |
| Button.VariantDecidesColours | components/common/Button.tsx:31-39 | without a caller value, `backgroundColor` and `borderColor` come from the variant |
| Button.DisabledFades | components/common/Button.tsx:41 | without a caller opacity, the button has opacity 0.6 exactly when it is disabled |
| Button.CallerStyleWins | components/common/Button.tsx:42 | a key of the caller's `style` overrides everything before it |
| Button.FullWidthEntry | components/common/Button.tsx:40 | in the style array of a full-width button, `width` is `'100%'` unless the caller's style sets it |
| Button.FullWidthStretches | components/common/Button.tsx:26-66 | a full-width button whose caller style sets no width renders with `width: '100%'` |
| Button.VariantOf | components/common/Button.tsx:22 | the given variant, or `primary` when it is omitted |
| Button.SizeOf | components/common/Button.tsx:23 | the given size, or `md` when it is omitted |
| Button.StyleEntries | components/common/Button.tsx:31-43 | the six entries: base, the variant and size looked up from the props, `{width: '100%'}` exactly when `fullWidth` is set, `{opacity: 0.6}` exactly when the button is disabled, and the caller's `style` last |
| Card.CardStyleIsLookThenCaller | components/common/Card.tsx:19-24 | the card's style is the variant's look (base, or base with the variant over it) with the caller's style spread last |
| Card.DefaultIsBase | components/common/Card.tsx:15-20 | an omitted variant or `default` gives the base with the caller's style over it |
| Card.UnknownVariantIsBase | components/common/Card.tsx:21 | a name the variant table lacks falls back to the base |
| Card.KnownVariantOverBase | components/common/Card.tsx:21-24 | a known variant is spread over the base, and the caller's style over both |
| Card.CallerStyleWins | components/common/Card.tsx:24 | the caller's style is applied last |
| Card.VariantOf | components/common/Card.tsx:15 | the given variant, or `default`, which names no table variant, so its look is the base |
| Card.Look | design-system.js:396-425 | an unknown name looks like the base; a known variant keeps every key it writes over the base |
| Card.VariantStyle | components/common/Card.tsx:19-21 | spread over the base, the chosen fragment gives the variant's look (the base itself for `default` and unknown names) |
| Card.CardStyle | components/common/Card.tsx:24 | every key of the base is set, and the caller's style wins on every key it sets |
| Input.FieldArray | components/common/Input.tsx:56-62 | the text field's array is `[base, focused?, error?, fullWidth?, inputStyle]`, each optional entry present exactly when its condition holds, the fullWidth entry being `{width: '100%'}` |
| Input.LabelArray | components/common/Input.tsx:45-49 | the label's array is `[label, errorLabel?, labelStyle]`, the middle entry present exactly on error |
| Input.EyeIcon | components/common/Input.tsx:70-81 | the eye button exists only for secure entry; it shows `eye-off` exactly when the text is not masked, and `eye` otherwise |
| Input.CaptionOf | components/common/Input.tsx:84-88 | a non-empty error is shown in error style; otherwise a non-empty helper text in helper style; otherwise nothing |
| Input.Render | components/common/Input.tsx:43-88 | the label is shown exactly when it is non-empty; the field is masked exactly when `secureTextEntry && !isPasswordVisible`; the rendering is made of the arrays and choices above |
| Input.InputState.constructor | components/common/Input.tsx:35-40 | on mount the field is not focused, the password is visible exactly when the entry is not secure, and so secure text starts masked |
| Input.InputState.Focus | components/common/Input.tsx:65 | focus sets `isFocused` and leaves the visibility alone |
| Input.InputState.Blur | components/common/Input.tsx:66 | blur clears `isFocused` and leaves the visibility alone |
| Input.InputState.TogglePasswordVisibility | components/common/Input.tsx:73 | each eye press flips the visibility, and with it the mask, and leaves focus alone |
| Input.InputState.View | components/common/Input.tsx:39-88 | the view of the current state is the rendering for its focus and visibility |
| Input.PlainEntryNeverMasked | components/common/Input.tsx:64-70 | a non-secure input is never masked and has no eye button |
| Input.ErrorBorderWins | components/common/Input.tsx:58-59 | with an error, the border is the error colour whether focused or not |
| Input.FocusBorder | components/common/Input.tsx:58 | focused without an error, the border is the primary colour |
| Input.RestingBorder | components/common/Input.tsx:57 | neither focused nor in error, the border is the base's |
| Input.FocusedBackground | components/common/Input.tsx:58-59 | when focused, the background is 0.12, error or not (the error entry sets no background) |
| Input.RestingBackground | components/common/Input.tsx:57 | when not focused, the background is the base's, error or not |
| Input.BorderAfterEvents | components/common/Input.tsx:56-66 | in any state of the field: red while in error, otherwise primary while focused, otherwise the glass border |
| Input.BackgroundAfterEvents | components/common/Input.tsx:56-66 | in any state of the field: 0.12 while focused and 0.08 otherwise |
| Input.LabelColour | components/common/Input.tsx:45-49 | without a caller colour, the label is the error colour exactly when there is an error, and the light neutral otherwise |
| Input.EmptyErrorIsNoError | components/common/Input.tsx:44-88 | an empty error string renders exactly as no error |
| Input.FullWidthStretches | components/common/Input.tsx:43-60 | a full-width input whose caller styles set no width has `width: '100%'` on both its container and its text field |
| Alert.Render | components/common/Alert.tsx:38-65 | the style is `[container, variants[type], style]` and the icon is `getIcon()`; the title is shown exactly when it is non-empty; the message is always shown; the close button is shown exactly when `onClose` is given |
| Alert.DefaultIsInfo | components/common/Alert.tsx:19 | an omitted type renders the same as `info` |
| Alert.IconIdentifiesType | components/common/Alert.tsx:24-36 | the four types that have a variant get four different icons |
| Alert.IconWithoutVariant | components/common/Alert.tsx:32-34 | a type with no variant gets `information-circle`, the same icon as `info` |
| Alert.UnknownTypeIsBareContainer | components/common/Alert.tsx:40-44 | a type with no variant adds nothing between the container and the caller's style |
| Alert.MiddleEntryWins | components/common/Alert.tsx:40-44 | in the three-entry array, a key the variant sets and the caller leaves comes from the variant |
| Alert.FirstEntryStays | components/common/Alert.tsx:40-44 | a key only the container sets comes from the container |
| Alert.VariantOverContainer | components/common/Alert.tsx:40-44 | for a type with a variant, its background replaces the container's overlay, the left border of 4 is added, and the container's border width of 2 stays |
| Alert.TypeOf | components/common/Alert.tsx:19 | the given type, or `info`, which has a variant |
| Alert.Icon | components/common/Alert.tsx:24-36 | `information-circle` exactly for a type other than success, warning and error |
| Alert.AlertStyle | components/common/Alert.tsx:40-44 | every container key is set, and the caller's `style`, last in the array, wins on every key it sets |
| AuthSlice.Reduce | store/slices/authSlice.ts:96-170 | every case keeps `isAuthenticated == (user != null)`. Only `setUser` and the fulfilled cases write the user. Pending sets loading, clears the error and keeps user, token and flag. Every settled case stops loading. Rejected stores its message and keeps user, token and flag. A fulfilled signUp, signIn or getSession stores the payload and leaves the error. A fulfilled signOut clears user, token and flag. `setToken` and `clearError` change only their own field |
| AuthSlice.Consistent | store/slices/authSlice.ts:22-28 | the invariant `isAuthenticated == (user != null)`, which the initial state (the constant `Initial`) satisfies |
| AuthSlice.Run | store/slices/authSlice.ts:92-172 | dispatching actions in order keeps the invariant; a last pending action leaves the store loading without an error, a last settled one leaves it not loading, and a last rejection shows its message |
| AuthSlice.RunKeepsConsistent | store/slices/authSlice.ts:96-170 | every sequence of actions from a consistent state ends in a consistent state |
| AuthSlice.ReachableIsConsistent | store/slices/authSlice.ts:22-28 | the initial state is consistent, and so is every state reachable from it |
| AuthSlice.FailedSignOutKeepsUser | store/slices/authSlice.ts:141-154 | a sign-out that fails leaves a signed-in user signed in with the same token, no longer loading, with the error shown |
| AuthSlice.RetryClearsError | store/slices/authSlice.ts:109-134 | a retry that succeeds clears an earlier error, because its pending case clears it |
| AuthSlice.TokenOf | store/slices/authSlice.ts:36-84 | `access_token || null`: the token is present exactly when there is a session with a non-empty access token, and is then that token |
| AuthSlice.ResponsePayload | store/slices/authSlice.ts:36-54 | a signUp or signIn payload carries the response's user and a token exactly when the session has a non-empty one |
| AuthSlice.SessionPayload | store/slices/authSlice.ts:78-84 | without a session, `getSession` yields `{user: null, token: null}`; with one, the current user and the session's token |
| AuthSlice.RejectionMessage | store/slices/authSlice.ts:40-87 | `error.message` if it is non-empty; otherwise the authentication message for signUp and signIn, and the default message for signOut and getSession; never empty |
| AuthSlice.Settle | store/slices/authSlice.ts:31-89 | a thunk dispatches its fulfilled action exactly when the call resolved, and otherwise its rejected action with the rejection message |
| AuthSlice.FailureAlwaysShowsError | store/slices/authSlice.ts:109-170 | after any failed call the state holds a non-empty error and is no longer loading |
| AuthSlice.SignInWithoutSession | store/slices/authSlice.ts:50-134 | a sign-in whose response has a user but no session signs the user in without a token |
| AuthSlice.NoSessionSignsOut | store/slices/authSlice.ts:78-166 | `getSession` without a session signs the app out |
| AuthSlice.AuthStore.constructor | store/slices/authSlice.ts:22-28 | the store starts in the initial state |
| AuthSlice.AuthStore.SetUser | store/slices/authSlice.ts:96-99 | the new state is the reducer's result for `setUser` |
| AuthSlice.AuthStore.SetToken | store/slices/authSlice.ts:100-102 | the new state is the reducer's result for `setToken` |
| AuthSlice.AuthStore.ClearError | store/slices/authSlice.ts:103-105 | the new state is the reducer's result for `clearError` |
| AuthSlice.AuthStore.Pending | store/slices/authSlice.ts:109-160 | the new state is the reducer's result for a pending case |
| AuthSlice.AuthStore.Fulfilled | store/slices/authSlice.ts:113-166 | the new state is the reducer's result for a fulfilled case |
| AuthSlice.AuthStore.Rejected | store/slices/authSlice.ts:119-170 | the new state is the reducer's result for a rejected case |
| AuthSlice.AuthStore.Dispatch | store/slices/authSlice.ts:92-172 | dispatching an action runs the reducer case for it, and the store stays consistent |
| Validation.IndexOfFrom | screens/LoginScreen.tsx:33 | the first index at or after a position that holds the character, or -1 when there is none |
| Validation.EmailPattern | screens/LoginScreen.tsx:33 | the strings `^\S+@\S+\.\S+$` accepts: no whitespace, an '@' after at least one character, then a '.' with at least one character on each side; such a string has at least five characters |
| Validation.EmailMatches | screens/LoginScreen.tsx:33 | a matched address has at least five characters, no whitespace, an '@' and a '.' (EmailMatchesIffPattern: it accepts exactly the pattern's strings) |
| Validation.EmailMatchesIffPattern | screens/LoginScreen.tsx:33 | the matcher accepts exactly the strings of `^\S+@\S+\.\S+$`: no whitespace, and an '@' after the first character with a '.' at least two positions later and not last |
| Validation.PatternIsNotBlank | screens/LoginScreen.tsx:30-35 | a string the pattern accepts is never blank after trimming |
| Validation.EmailError | screens/LoginScreen.tsx:30-38 | a blank address is required; a non-blank one that fails the pattern is invalid; there is no error exactly when the pattern matches |
| Validation.SpacedEmailIsInvalid | screens/LoginScreen.tsx:33-35 | the pattern runs on the untrimmed text, so a non-blank address with any whitespace, even leading or trailing, is invalid |
| Validation.PasswordError | screens/LoginScreen.tsx:41-49 | an empty password is required; one shorter than 6 code units is too short; there is no error exactly when the length is at least 6 |
| Validation.BlankPasswordAccepted | screens/LoginScreen.tsx:41-49 | the password is not trimmed: six spaces pass |
| Validation.NameError | screens/RegisterScreen.tsx:35-40 | a name that is blank after trimming is required, and any other name has no error |
| Validation.ConfirmError | screens/RegisterScreen.tsx:65-73 | an empty confirmation is required; a different one does not match; there is no error exactly when it is non-empty and equal to the password |
| LoginScreen.LoginForm.constructor | screens/LoginScreen.tsx:14-17 | all four fields start empty |
| LoginScreen.LoginForm.ValidateInputs | screens/LoginScreen.tsx:26-52 | both fields are always checked, and each error is set to its rule; the result is true exactly when both errors are empty, that is, exactly when the address matches and the password has at least 6 code units |
| LoginScreen.LoginForm.HandleLogin | screens/LoginScreen.tsx:55-64 | a sign-in with the form's address and password is requested exactly when validation passes |
| RegisterScreen.RegisterForm.constructor | screens/RegisterScreen.tsx:14-22 | all eight fields start empty |
| RegisterScreen.RegisterForm.CheckName | screens/RegisterScreen.tsx:35-40 | the name block sets only the name error, to the name rule |
| RegisterScreen.RegisterForm.CheckEmail | screens/RegisterScreen.tsx:43-51 | the e-mail block sets only the e-mail error, to the rule the sign-in screen uses |
| RegisterScreen.RegisterForm.CheckPassword | screens/RegisterScreen.tsx:54-62 | the password block sets only the password error, to the rule the sign-in screen uses |
| RegisterScreen.RegisterForm.CheckConfirm | screens/RegisterScreen.tsx:65-73 | the confirmation block sets only its own error, and compares even when the password itself was rejected |
| RegisterScreen.RegisterForm.ValidateInputs | screens/RegisterScreen.tsx:31-76 | all four fields are checked independently, each error set to its rule; the result is true exactly when all four errors are empty, that is, exactly when the form is valid |
| RegisterScreen.RegisterForm.HandleRegister | screens/RegisterScreen.tsx:79-88 | a sign-up with name, address and password is requested exactly when validation passes |
| RegisterScreen.ValidConfirmationIsNonEmpty | screens/RegisterScreen.tsx:57-73 | in a valid form the confirmation check passes: the length rule already rules out an empty confirmation |
| Helpers.GetFileExtension | utils/helpers.ts:85-89 | "" when there is no '.'; otherwise the lower-cased text after the last '.', which holds no '.' and is its own lower-case form |
| Helpers.TrailingDotGivesEmptyExtension | utils/helpers.ts:86-88 | a name ending in '.' has the empty extension |
| Helpers.GetMimeType | utils/helpers.ts:96-111 | the table entry for the lower-cased extension if the table has one, and `application/octet-stream` otherwise; the result is always one of these |
| Helpers.MimeTypeIgnoresCase | utils/helpers.ts:110 | `getMimeType(e) == getMimeType(e.toLowerCase())` |
| Helpers.LowerWord | utils/helpers.ts:110 | a word of lower-case ASCII letters is its own lower-case form and holds no '.' |
| Helpers.MimeTypeTable | utils/helpers.ts:97-108 | the table has exactly the ten listed extensions |
| Helpers.JpegSpellings | utils/helpers.ts:99-100 | `jpg` and `jpeg` both give `image/jpeg` |
| Helpers.MimeTypeOfUpperJpg | utils/helpers.ts:110 | `JPG` gives `image/jpeg` |
| Helpers.LongExtensionIsOctetStream | utils/helpers.ts:110 | an extension of five or more characters falls back to `application/octet-stream` |
| Helpers.TableKeysAreShort | utils/helpers.ts:97-108 | every table key has at most four characters |
| Helpers.LowerKeyMissesCapitalisedName | utils/helpers.ts:110 | a lower-cased key never equals a name holding an upper-case letter, so `hasOwnProperty`, `toString` and the other camel-case inherited members are out of reach |
| Helpers.PrototypeMembersAreLong | utils/helpers.ts:110 | both inherited member names a lower-cased key can reach (`constructor` and `__proto__`, the constant `ObjectPrototypeMembers`) have at least seven characters, so neither is a table key |
| Helpers.GetMimeTypeAsWritten | utils/helpers.ts:110 | the lookup as written differs from the intended one exactly on the names inherited from `Object.prototype`, and returns the inherited member there |
| Helpers.ConstructorExtensionIsNotAMimeType | utils/helpers.ts:110 | as written, the extension `constructor` yields Object's constructor function, where the intended lookup gives `application/octet-stream` |
| Helpers.InheritedMemberFileName | utils/helpers.ts:85-110 | a file named `<anything>.<inherited member>` reaches that member through `getFileExtension` and `getMimeType` |
| Helpers.DecimalString | utils/helpers.ts:123 | a whole number prints as a non-empty run of decimal digits that spells it, with no leading zero unless it is 0 |
| Helpers.DecimalStringInjective | utils/helpers.ts:123 | two different timestamps print differently |
| Helpers.CreateUniqueFileName | utils/helpers.ts:118-124 | with a '.': the base before the last '.', `_`, the timestamp, '.', and the lower-cased extension; without one: `_<timestamp>.` |
| Helpers.ExtensionAfterLastDot | utils/helpers.ts:85-89 | when nothing after a '.' is a '.', the extension is the lower-cased text after it |
| Helpers.UniqueNameKeepsExtension | utils/helpers.ts:118-124 | the unique name has the same extension as the original |
| Helpers.UniqueNameKeepsBaseCase | utils/helpers.ts:121-123 | the base keeps its letter case; only the extension is lower-cased |
| Helpers.UniqueNamesDifferInTime | utils/helpers.ts:118-124 | the same file name at two different times gives two different unique names |
| Helpers.CreateUniqueFileNameKeepingBase | utils/helpers.ts:118-124 | agrees with `createUniqueFileName` on names with a '.', and otherwise keeps the whole name as the base, with no trailing '.'; in both cases the result starts with the base |
| Helpers.DotlessNameLosesBase | utils/helpers.ts:121-123 | as written, `README` at time 42 becomes `_42.`; the corrected function gives `README_42` |
| AppNavigator.OutlineOfFocused | navigation/AppNavigator.tsx:69-84 | for each tab route the unfocused icon is the focused icon followed by `-outline` |
| AppNavigator.OtherRouteShowsEllipsis | navigation/AppNavigator.tsx:85-86 | any other route shows `ellipsis-horizontal`, focused or not |
| AppNavigator.EveryTabHasItsIcon | navigation/AppNavigator.tsx:93-97 | the tab navigator registers exactly `TAB_SCREENS`, in order, and none of them falls back to the ellipsis |
| AppNavigator.TabIconsDistinct | navigation/AppNavigator.tsx:69-84 | the five tabs show five different icons |
| AppNavigator.RootFollowsUser | navigation/AppNavigator.tsx:132-136 | in every state the slice can reach, the main navigator shows exactly when a user is stored |
| AppNavigator.SignOutShowsLogin | navigation/AppNavigator.tsx:51-136 | a completed sign-out always brings back the stack holding the sign-in screen |
| AppNavigator.LoginOnlyWhenSignedOut | navigation/AppNavigator.tsx:51-136 | the sign-in screen is registered exactly while signed out |
| AppNavigator.TabBarIcon | navigation/AppNavigator.tsx:66-90 | the icon is `ellipsis-horizontal` exactly for a route outside `TAB_SCREENS`, and an unfocused tab's icon ends in `-outline` |
| AppNavigator.RootNavigator | navigation/AppNavigator.tsx:130-139 | the main navigator exactly when `isAuthenticated` |
| AppNavigator.Screens | navigation/AppNavigator.tsx:27-127 | `Login` and `Register` are registered exactly in the auth stack (the constant `AuthStack`) and `Tabs` exactly in the main stack (`MainStack`); the tab navigator's own list is `TabNavigatorScreens` |

## Findings

| source | as written | input that shows it | evidently intended | confidence | as-written member | corrected member |
|---|---|---|---|---|---|---|
| utils/helpers.ts:110 | `types[extension.toLowerCase()] \|\| 'application/octet-stream'` reads a plain object literal, so a key inherited from `Object.prototype` is found too, and it is truthy | `getMimeType('constructor')` (or a file `x.constructor`) returns Object's constructor function, not a string | only the ten listed extensions map to a type; every other extension maps to `application/octet-stream` | not executed | Helpers.GetMimeTypeAsWritten, Helpers.ConstructorExtensionIsNotAMimeType | Helpers.GetMimeType |
| utils/helpers.ts:121-123 | the base is `substring(0, lastIndexOf('.'))`, and `lastIndexOf` is -1 for a name without a '.' | `createUniqueFileName('README')` at time 42 gives `_42.`: the name is lost and a bare '.' is left at the end | a name without an extension keeps itself as the base and gets no trailing '.': `README_42` | not executed | Helpers.CreateUniqueFileName, Helpers.DotlessNameLosesBase | Helpers.CreateUniqueFileNameKeepingBase |

## Left out

- Network and storage I/O are not part of this model. That covers services/auth.ts, services/api.ts and services/storage.ts, and the async bodies of the thunks (`await`, `try`/`catch`). A thunk's service call is its `Outcome` parameter.
- A rejection whose thrown value is `null` or `undefined` is not modelled: reading `error.message` would itself throw inside the `catch`. A thrown value without a `message` property is modelled; it is `Outcome.Threw(None)` and falls back to the `ERROR_MESSAGES` text.
- React's asynchronous state updates are not modelled. `setEmailError` and the other setters are applied at once. This does not change what `validateInputs` returns: it reads only its local `isValid` flag.
- RegisterScreen.RegisterForm.ValidateInputs: the four blocks of the source's one function are split into the methods `CheckName`, `CheckEmail`, `CheckPassword` and `CheckConfirm`. They run in the same order and have the same effects.
- Dispatching `signIn` or `signUp` is modelled by the request that `HandleLogin` and `HandleRegister` return. The `RNAlert` shown when dispatch throws is a UI side effect and is not modelled.
- JsString.LowerChar and JsString.ToLower lower-case ASCII letters only. Full Unicode case mapping is not modelled. Every extension in the MIME table is ASCII.
- JsString.Utf16Length counts code points above U+FFFF as two code units. Lone surrogates cannot occur in a Dafny `string`.
- Colours are `rgba` tuples with real alpha; token tables are kept as literal data with no arithmetic on reals. The typography tables (`lineHeight`, `letterSpacing`, `fontWeight`) and `colors.gradients` are data only.
- `Style.Key.Other` stands for any other style property a caller may pass. React-Native's own style flattening (nested arrays, `StyleSheet` ids) is modelled only as the ordered override `Flatten`.
- The design system's modal, navigation, list, badge, toggle, checkbox, progress and tooltip style groups are not modelled. No component in this model reads them. The same holds for `inputStyles.states.disabled`: `Input.tsx` never applies it.
- Button.Render: `variant` and `size` are typed by datatypes. The TypeScript unions rule out other strings, so an unknown variant or size, which would look up `undefined`, is not modelled. `Card` and `Alert` keep string props, because their fallbacks are reachable only through other strings.
- Input.Render: the `{...textInputProps}` spread (components/common/Input.tsx:67) is not modelled. If a caller passes its own `onFocus`/`onBlur`, they replace the component's handlers, and the focus state then never changes. The props object is destructured without `style` (lines 28-37), so a caller's `style` also stays in that spread, which comes after `style={[...]}` (lines 56-62) and so replaces the whole field array. Input.FieldArray, Input.ErrorBorderWins, Input.FocusBorder, Input.RestingBorder, Input.FocusedBackground, Input.RestingBackground, Input.BorderAfterEvents and Input.BackgroundAfterEvents therefore hold only for a field rendered without a caller `style`; no screen passes one (screens/LoginScreen.tsx:96,107 and screens/RegisterScreen.tsx:119,128,139,150).
- Input.InputState.constructor: `useState(!secureTextEntry)` reads the prop only at mount. A later change of `secureTextEntry` does not reset the visibility, and the model likewise takes it once.
- The static parts of the rendering are not modelled: icon sizes and colours, the `eyeIcon` placement, `activeOpacity`, and `placeholderTextColor`.
- The card-stack animation interpolation of navigation/AppNavigator.tsx uses floating-point animation and is not modelled. The placeholder screens (navigation/AppNavigator.tsx:142-160) are not modelled either: each renders the stateless `DesignSystemShowcase`, which is not part of this model.
- The `Tabs` entry of the main stack nests the tab navigator. `AppNavigator.Screens` lists the main stack's own entries and does not flatten the tabs into it.
- The rest of utils/helpers.ts is not part of this model. `formatDate`/`parseDate` wrap a date library, `formatCurrency` uses `Intl`, `generateId` uses `Math.random`, `fileExists` does file I/O, and `formatFileSize` uses floating point. `getUserStoragePath` of services/storage.ts is a one-line template over a storage path and is not modelled.
- DesignSystemShowcase.js, Container.tsx, Header.tsx, Loading.tsx, DashboardScreen.tsx, store.ts and App.tsx are layout or framework wiring, with no logic of their own. They are not part of this model.
