# FeelOne demo: a verified model of its screen logic

FeelOne is a small single-page demo. The user types what they feel, watches an
"Analysing..." delay, and then sees a canned emotional analysis drawn at random
from a fixed pool of five records. This project models the logic under the
screens and proves properties of it in Dafny:

- **App** (`app.dfy`) is the top-level component. It holds three state cells:
  the current view (`DevNotice | Input | Analyzing | Results`), the optional
  analysis, and the session counter. The prompt is chosen by the clamped index
  `min(sessionCount, |QUESTION_TEXTS| - 1)`. The five handlers are pure
  transition functions on a `Session` value. The class `App.App` has the same
  cells as fields, and its methods are tied to those functions. UI intents are
  an `Event` type. `Wired` says which screen can emit which intent, because
  each handler is only passed to the screen that uses it. Under that wiring the
  invariant "an analysis is present exactly on the results screen, and it is a
  pool record" holds on every reachable session. So the results branch never
  falls through to `null`.
- **InputView** (`input_view.dfy`) is the prompt screen. The gate is
  `trim(input).length > 10`, where `Trim` strips the ECMAScript whitespace code
  points and the length counts UTF-16 code units. The typing reveal is a tick-driven state: each interval tick shows a
  longer prefix of the question. After the whole question is shown, the
  interval stops and the input box appears. The class `InputView.InputView`
  holds the component's state cells.
- **AnalyzingView** (`analyzing_view.dfy`) is the delay screen. It has a dot
  counter `(n + 1) % 4`, advanced every 500 time units, and a one-shot
  completion after 3000 units. A cleanup cancels both. Time is discrete: one
  tick is one time unit.
- **MockData** (`mock_data.dfy`) holds the pool of five records and the
  selection `pool[floor(r * 5)]`. The value of `Math.random()` is a parameter
  `r` of the subset type `Random`, the reals in [0, 1). The pool is a
  constant, so no selection can alter it.
- **Auth** (`auth.dfy`) is the mock sign-in form. `handleSubmit` builds
  `{username, email}` with two fallbacks: the email's text before the first
  '@', and `username + "@feelone.com"`. It also models the Enter-key trigger
  and the Log In / Sign Up toggle.
- **Types** (`types.dfy`) mirrors `src/types.ts` and defines `Option`, the
  model of a nullable value.

These inputs come from outside the model: `SHOW_DEMO_NOTICES` and
`QUESTION_TEXTS` (from `src/constants.ts`) are constructor parameters of
`App.App`, the random value is a parameter of `AnalysisComplete`, and text
input and key presses are method arguments. `src/constants.ts` is not part of
this model.

Facts about the code that the model keeps:

- `src/App.tsx` has no login, logout or profile transitions.
- `handleInputProceed` in `src/App.tsx` has no length check; the gate is in
  `InputView`.
- The completion delay in `src/components/AnalyzingView.tsx` is 3000 units.
- The session counter grows without bound; only the index derived from it is
  clamped.
- The nested 300/100-unit timeouts of the typing reveal are never cancelled.
- `.length` in JavaScript counts UTF-16 code units, so a character above
  U+FFFF (an emoji, say) counts twice in the gate.

## Model

| member | source | states |
|---|---|---|
| MockData.PickIndex | src/mockData.ts:57 | `floor(r * n)` for r in [0,1) is an index in [0, n): it is the integer part of `r * n` |
| MockData.GenerateMockAnalysis | src/mockData.ts:56-59 | the result is an element of the pool, returned unchanged: the entry at `floor(r * |pool|)` |
| MockData.PoolShape | src/mockData.ts:3-54 | the pool has exactly five records, and each has exactly four actionable steps |
| MockData.EveryRecordSelectable | src/mockData.ts:57 | every pool record is returned for some random value (r = i / 5), so selection reaches the whole pool |
| InputView.IsWhitespace | src/components/InputView.tsx:41 | space, tab, LF and CR are stripped by `trim`; printable ASCII is not; every stripped code point is below U+10000 |
| InputView.Utf16Length | src/components/InputView.tsx:41 | JavaScript's `length` lies between the character count and twice it; it equals the character count when no character is above U+FFFF and twice it when all are |
| InputView.CanProceed | src/components/InputView.tsx:56 | the gate `trim().length > 10` opens whenever the trimmed text has more than 10 characters and never with 5 or fewer |
| InputView.GateOnBasicPlane | src/components/InputView.tsx:56 | for text with no character above U+FFFF, the gate is exactly "the trimmed text has more than 10 characters" |
| InputView.SixEmojiPass | src/components/InputView.tsx:56 | six emoji U+1F622 are 12 UTF-16 code units and open the gate |
| InputView.Trim | src/components/InputView.tsx:41 | `trim` leaves no whitespace at either end and never lengthens the string |
| InputView.TrimSplit | src/components/InputView.tsx:41 | the trimmed text is a contiguous piece `s[lo..hi]`; everything cut off before and after it is whitespace |
| InputView.TrimPadded | src/components/InputView.tsx:41 | trimming whitespace + core + whitespace, with nothing to trim from the core, gives exactly the core |
| InputView.GateIgnoresPadding | src/components/InputView.tsx:41 | whitespace padding changes neither the trimmed text nor the gate's verdict |
| InputView.LongFeelingPasses | src/components/InputView.tsx:56 | the 25-character input "I feel kind of lost today" opens the gate |
| InputView.PaddedShortWordFails | src/components/InputView.tsx:56 | a three-letter word padded with spaces does not open the gate |
| InputView.Start | src/components/InputView.tsx:16-20 | the state after the effect (re)starts shows nothing, hides the input box, has typing on, and satisfies the reveal invariant for every question |
| InputView.Tick | src/components/InputView.tsx:22-35 | a tick keeps the reveal invariant, a stopped interval does nothing, and the tick that reveals the input box leaves the display as it was |
| InputView.TickGrows | src/components/InputView.tsx:22-25 | one tick keeps the reveal invariant; the shown text stays a prefix of the question, never shrinks, and grows by exactly one character on each tick while the index is in 1..|q| |
| InputView.TicksFromStart | src/components/InputView.tsx:20-29 | after n ticks from the start, for n <= |q|+1 the interval still runs and `q[..n-1]` (empty for n = 0) is shown; from then on the interval is stopped, the whole question is shown and the input box is revealed |
| InputView.TypingStopsAfter | src/components/InputView.tsx:23-29 | the interval runs exactly while fewer than |q|+2 ticks have passed, and the input box is shown exactly from then on |
| InputView.DisplayedMonotone | src/components/InputView.tsx:22-25 | the displayed text after m ticks is a prefix of the text after n >= m ticks, which is a prefix of the question |
| InputView.TicksValid | src/components/InputView.tsx:16-35 | every reveal state reached from the start satisfies the reveal invariant |
| InputView.InputOnlyAfterFullQuestion | src/components/InputView.tsx:26-29 | when the input box is shown, the full question is displayed |
| InputView.InputView.constructor | src/components/InputView.tsx:10-20 | at mount the display is empty, the input and button are hidden, the input is empty and typing starts at index 0 |
| InputView.InputView.QuestionChanged | src/components/InputView.tsx:16-20 | a new question resets the display to empty and hides the input box and the button before any tick; the typed input is kept |
| InputView.InputView.TypingTick | src/components/InputView.tsx:22-35 | one interval tick moves the reveal state one step on and keeps the invariant; the old display is a prefix of the new display, and both are prefixes of the question |
| InputView.InputView.SetUserInput | src/components/InputView.tsx:40-46 | after an input change, the button is shown exactly when the trimmed input is longer than 10 UTF-16 code units |
| InputView.InputView.HandleProceed | src/components/InputView.tsx:55-59 | `onProceed` is called exactly when the trimmed input is longer than 10 UTF-16 code units, and it receives the untrimmed input; otherwise nothing happens |
| AnalyzingView.Dots | src/components/AnalyzingView.tsx:14 | `'.'.repeat(n)` has length n and contains only '.' characters |
| AnalyzingView.Mount | src/components/AnalyzingView.tsx:10-19 | the state when the effect starts satisfies the timer invariant: no dots, nothing completed, nothing cancelled |
| AnalyzingView.Advance | src/components/AnalyzingView.tsx:11-19 | after cleanup a unit changes nothing; otherwise it moves the clock by one; the completion count never drops and rises, by one, only at unit 3000 |
| AnalyzingView.CleanedUp | src/components/AnalyzingView.tsx:21-24 | cleanup cancels both timers, so a further unit changes nothing; it keeps the invariant, the clock and the completion count |
| AnalyzingView.DotsBounded | src/components/AnalyzingView.tsx:13-14 | under the invariant the counter is in [0,3], the dots string is that many '.', and completion has fired at most once |
| AnalyzingView.AdvancePreservesValid | src/components/AnalyzingView.tsx:11-19 | one time unit keeps the timer invariant, and it moves the clock unless cleanup has run |
| AnalyzingView.AdvancedFromMount | src/components/AnalyzingView.tsx:10-19 | after n units with no cleanup, the invariant holds and the clock reads n |
| AnalyzingView.DotCycle | src/components/AnalyzingView.tsx:11-15 | after k dot periods the counter is k mod 4 and the dots show it, so the cycle from 0 is 1, 2, 3, 0, ... |
| AnalyzingView.CompletesOnceAtDelay | src/components/AnalyzingView.tsx:17-19 | the completion count is 0 before 3000 units and exactly 1 from 3000 units on |
| AnalyzingView.CleanupSilences | src/components/AnalyzingView.tsx:21-24 | after cleanup, any number of further units changes nothing: no dot tick and no completion |
| AnalyzingView.CleanupBeforeDelayNeverCompletes | src/components/AnalyzingView.tsx:17-24 | a cleanup before 3000 units means completion never fires |
| AnalyzingView.AnalyzingView.constructor | src/components/AnalyzingView.tsx:8-19 | at mount the dots are empty, the counter and clock are 0, and nothing has completed or been cleaned up |
| AnalyzingView.AnalyzingView.Tick | src/components/AnalyzingView.tsx:12-19 | one unit moves the state one step on; `completed` holds exactly when the unit reaches 3000 before any cleanup |
| AnalyzingView.AnalyzingView.Cleanup | src/components/AnalyzingView.tsx:21-24 | cleanup marks both timers as cancelled and changes nothing else |
| Auth.BeforeFirst | src/components/Auth.tsx:17 | `split(sep)[0]` is a prefix of s with no sep in it, followed in s by sep when it is shorter than s |
| Auth.BeforeFirstOfAddress | src/components/Auth.tsx:17 | for an address local + "@" + domain with no '@' in local, `split('@')[0]` is local |
| Auth.OrElse | src/components/Auth.tsx:17-18 | JavaScript's logical or on strings returns one of its operands: `a` when it is non-empty, and empty only when both are |
| Auth.BuildUser | src/components/Auth.tsx:16-19 | a non-empty username is kept, and an empty one becomes the email's text before its first '@'; a non-empty email is kept, and an empty one becomes the raw username + "@feelone.com" |
| Auth.UsernameFromAddress | src/components/Auth.tsx:17 | with no username, the record's username is the local part of the email |
| Auth.UsernameFromPlainEmail | src/components/Auth.tsx:17 | with no username and no '@' in the email, the whole email is the username |
| Auth.BothEmpty | src/components/Auth.tsx:17-18 | two empty fields give username "" and email "@feelone.com" |
| Auth.Auth.constructor | src/components/Auth.tsx:9-12 | the form starts in Log In mode with all fields empty |
| Auth.Auth.SetEmail | src/components/Auth.tsx:116 | sets the email and leaves the other cells unchanged |
| Auth.Auth.SetUsername | src/components/Auth.tsx:131 | sets the username and leaves the other cells unchanged |
| Auth.Auth.SetPassword | src/components/Auth.tsx:145 | sets the password and leaves the other cells unchanged |
| Auth.Auth.ToggleMode | src/components/Auth.tsx:166-168 | the link flips `isLogin` and changes nothing else |
| Auth.Auth.HandleSubmit | src/components/Auth.tsx:14-21 | every submission yields exactly one record `BuildUser(username, email)`; there is no rejection path |
| Auth.Auth.HandleKeyPress | src/components/Auth.tsx:23-27 | a submission happens exactly when the key is "Enter", and it yields the submit record |
| Auth.ToggleTwice | src/components/Auth.tsx:166-168 | toggling twice restores the original mode, the email, the username and the password |
| App.Initial | src/App.tsx:11-13 | the session at mount satisfies the invariant, with no analysis and counter 0; it starts on the notice exactly when demo notices are on, and on the input screen otherwise |
| App.PromptIndex | src/App.tsx:15 | `Math.min(sessionCount, length - 1)` is either the counter or the last index; for a non-empty list it is a valid index at most the counter, and it is -1 for an empty list |
| App.ProceedFromDevNotice | src/App.tsx:17-19 | moves to the input screen and keeps the counter; from a valid notice session the result is valid with no analysis |
| App.InputProceed | src/App.tsx:21-23 | moves to analyzing and keeps the counter; from a valid input session the result is valid with no analysis |
| App.AnalysisComplete | src/App.tsx:25-29 | moves to results with a pool record as the analysis, keeps the counter, and the result is valid from any session |
| App.StartOver | src/App.tsx:31-35 | returns to the input screen with no analysis and the counter one higher; the result is valid |
| App.Close | src/App.tsx:37-41 | returns to the input screen with no analysis and counter 0, which is the mount state without notices, whatever the session was |
| App.Wired | src/App.tsx:43-65 | each handler is wired only while its screen is rendered (the link to `Render` is App.WiredOnlyFromItsScreen); any handler so wired keeps the session invariant, and Continue is wired only when the gate is open |
| App.Render | src/App.tsx:43-65 | each view renders its own screen: the notice exactly on the notice view, the input screen (with the clamped prompt) exactly on the input view, the analyzing screen exactly on the analyzing view, the results screen with the session's analysis exactly on the results view with an analysis, and `null` exactly on the results view without one |
| App.WiredOnlyFromItsScreen | src/App.tsx:43-65 | an intent is wired only while the screen that emits it is rendered: Proceed on the notice, Continue on the input screen, the timeout on the analyzing screen, Start over and Close on the results screen |
| App.PromptFor | src/App.tsx:15 | the prompt exists exactly when the list is non-empty; it is entry `sessionCount` while that entry exists, and the last entry after that |
| App.PromptIndexMonotone | src/App.tsx:15 | the clamped index never decreases as the counter grows, and once it is the last index it stays there |
| App.PromptFixedBeyondBound | src/App.tsx:15 | once the counter is at least |list|-1, every further increment leaves the prompt at the last entry |
| App.InitialScreen | src/App.tsx:11-49 | at mount the notice is rendered when demo notices are on, and otherwise the input screen with the first prompt |
| App.ValidNeverBlank | src/App.tsx:43-65 | a valid session always renders a screen and never `null` |
| App.StepPreservesValid | src/App.tsx:17-41 | every intent that a rendered screen can emit keeps the invariant |
| App.RunPreservesValid | src/App.tsx:17-41 | every sequence of intents keeps the invariant |
| App.ReachableRendersScreen | src/App.tsx:11-65 | every session reachable from mount is valid and renders a screen |
| App.SubmitGate | src/App.tsx:21-23 | on the input screen Continue leads to analyzing exactly when the trimmed text is longer than 10 UTF-16 code units, and otherwise changes nothing; analysis and counter are kept |
| App.CloseResets | src/App.tsx:31-41 | start over followed by close ends at input with no analysis and counter 0; close is idempotent |
| App.CounterEvolution | src/App.tsx:31-41 | the counter changes only by start over (+1) or close (reset to 0) |
| App.Walkthrough | src/App.tsx:17-41 | with notices on, Proceed, any feeling that opens the gate, and the timeout reach results with a pool record; a following Close returns to input with counter 0 |
| App.DemoWalkthrough | src/App.tsx:17-41 | with notices on, Proceed, a 25-character feeling and the timeout reach results with a pool record; a following Close returns to input with counter 0 |
| App.App.constructor | src/App.tsx:11-13 | the view starts at DevNotice when notices are on and at Input otherwise; the analysis starts `null` and the counter at 0 |
| App.App.QuestionText | src/App.tsx:15 | the prompt given to the input screen exists exactly when the list is non-empty, and it is an entry of the list |
| App.App.HandleProceedFromDevNotice | src/App.tsx:17-19 | sets the view to Input and leaves the rest unchanged; keeps the invariant when called from the notice |
| App.App.HandleInputProceed | src/App.tsx:21-23 | sets the view to Analyzing and leaves the analysis and the counter unchanged; keeps the invariant when called from the input screen |
| App.App.HandleAnalysisComplete | src/App.tsx:25-29 | sets the view to Results and the analysis to the pool record chosen by the random value; the counter is unchanged |
| App.App.HandleStartOver | src/App.tsx:31-35 | sets the view to Input, clears the analysis, and adds 1 to the counter |
| App.App.HandleClose | src/App.tsx:37-41 | sets the view to Input, clears the analysis, and resets the counter to 0 whatever it was |

## Left out

- Rendering, CSS blocks, animations and layout are presentation and have no logic (for example src/components/InputView.tsx:61-187).
- Focusing the text area and resizing it are DOM side effects (src/components/InputView.tsx:30-32, 48-53); the 100-unit focus timeout goes with them.
- InputView.Tick: the reveal advances one character per tick, where the source's `length` and `slice` work in UTF-16 code units. For a question with a character above U+FFFF the source shows a lone surrogate half for one tick and takes one tick more; questions are fixed text, and the model does not capture this.
- InputView.Tick: the 300-unit timeout before the input box appears is merged into the tick that stops the interval. The source never cancels that timeout, so a question change inside those 300 units would still reveal the box. The model does not capture this; in the app the question only changes on a fresh mount.
- The unmount cleanup of the typing interval is not a separate operation: an unmounted component has no observable state.
- Timers run in discrete units, not real time. At unit 3000 the dot tick and the completion fire in the same step, and their relative order is not modelled.
- The analyzing effect's rerun when the `onAnalysisComplete` identity changes is not modelled, because the App does not re-render while analyzing.
- `Math.random` is a parameter in [0, 1). Floating-point rounding of `r * 5` is not modelled: the product is an exact real.
- InputView.IsWhitespace follows the ECMAScript WhiteSpace and LineTerminator code points as of current Unicode (category Zs); it does not claim to match future Unicode versions.
- Login, logout and profile transitions do not appear in src/App.tsx, so they are not in the state machine.
- src/components/Profile.tsx (a no-op save), src/components/ResultsView.tsx (a 500-unit notice timer), and src/components/DemoNotice.tsx and src/components/DevNoticeView.tsx (which only relay callbacks) are presentation.
- src/constants.ts is not part of this model; `SHOW_DEMO_NOTICES` and `QUESTION_TEXTS` are parameters.
