# Valentine wizard: a Dafny model of its step machine

The app is a single-page greeting that walks its visitor through eight screens
(welcome, five teases, a message composer and a final reveal). Everything it
does apart from drawing those screens is a small state machine held in the
`App` component: the current step, a tap counter for the "power up" screen,
the message text and a loading flag, moved by Next, Back, taps, a deferred
auto-advance timer, a generated-message request and a Replay button.

This project models that machine and proves its rules.

- `wrappers.dfy`: `Option`, standing for JavaScript's `undefined`.
- `steps.dfy` (module `Steps`): the `WizardStep` enumeration, its string values,
  `Object.values(WizardStep)` in declaration order, and `IndexOf`/`StepAt`.
- `builtins.dfy` (module `Builtins`): `Array.prototype.indexOf` and
  `String.prototype.trim`, which the app's rules are written with.
- `message_service.dfy` (module `MessageService`): the message adapter. It
  falls back to a stock greeting when the call fails, but not when building
  the client fails. What the remote side did is an input.
- `app_rules.dfy` (module `AppRules`): the pure rules. These are where Next and
  Back lead, the auto-advance condition, the forward-button gate on the
  Generator screen, and the progress and tap dots.
- `app.dfy` (module `App`): class `Wizard` with the component's state fields.
  Each handler is a method. `RunEffect` is the auto-advance effect.

How the effect is modelled: React re-runs it after a render in which `step` or
`clickCount` changed. Each re-run first clears the timer the previous run armed,
then arms a new one if `clickCount >= 7` and the step is `TEASE_3`. A timer is
named by the handle `setTimeout` returned. `TimerElapsed(id)` therefore acts
only for the handle that is still armed, and a cleared handle does nothing.
`Valid()` says a timer is armed exactly when the condition holds.

`generateMagic` awaits the adapter, so it is split in two.
`BeginGenerate` sets `loading` and records the step its closure saw.
`CompleteGenerate` applies the reply later. Its `handleNext` works from that
recorded step, not from the current one, as the code does. If the visitor
pressed Back while the request was pending, the reply still moves the wizard
to the step after the recorded one. `GenerateMagic` is the case where nothing
happens in between.

Behaviour of the code that the model keeps:
- Only Replay (`App.tsx:303`) and the firing timer (`App.tsx:70`) reset the tap counter. Going back to WELCOME leaves it as it is.
- Only the effect's condition makes taps matter: seven taps on `TEASE_3` (`App.tsx:67`). Taps counted on any other step have no effect until the wizard is on `TEASE_3`.
- Reading the step sequence at a position outside it gives `undefined`, modelled as `None` (`App.tsx:40,50`).
- Replay leaves `loading` as it was (`App.tsx:301-305`).
- The message client is built at `services/gemini.ts:5`, outside the `try` of line 7. If building it throws, `generateLoveMessage` rejects and `generateMagic` stops at its `await` (`App.tsx:78`). Loading then stays on, and step and message do not change.

## Model

| member | source | states |
|---|---|---|
| Steps.Value | types.ts:3-10 | each member's value is a non-empty upper-case identifier (its own name; the exact list is in `DeclarationOrder`) |
| Steps.FromValue | App.tsx:40 | a string read back as a step is a member only if that member's value is exactly the string |
| Steps.Values | App.tsx:37 | `Object.values(WizardStep)` lists eight values |
| Steps.IndexOf | types.ts:2-11 | every member has a position below eight, and the value listed at that position is its own |
| Steps.StepAt | App.tsx:40 | a read at position `i` gives a member iff `0 <= i < 8`, and that member's value is the one listed at `i` |
| Steps.ValueRoundTrip | types.ts:3-10 | reading a member's value back as a step gives the same member |
| Steps.ValueInjective | types.ts:3-10 | two members with the same value are the same member |
| Steps.ValuesDistinct | types.ts:3-10 | the eight listed values are pairwise distinct |
| Steps.StepAtIndexOf | types.ts:2-11 | `StepAt(IndexOf(s)) == Some(s)` for every step |
| Steps.IndexOfStepAt | types.ts:2-11 | `IndexOf(StepAt(i)) == i` for every position `0 <= i < 8` |
| Steps.DeclarationOrder | types.ts:2-11 | the order is WELCOME, TEASE_1..TEASE_5, GENERATOR, FINAL, each valued by its own name; WELCOME is at 0, FINAL at 7, TEASE_4 follows TEASE_3 and FINAL follows GENERATOR |
| Steps.SearchFindsIndex | App.tsx:37-38 | `Object.values(WizardStep).indexOf(step)` finds every step at its declaration index, never -1 |
| Builtins.ArrayIndexOf | App.tsx:38 | `indexOf` gives -1 iff the value is absent, and otherwise the first position holding it |
| Builtins.IsWhitespace | App.tsx:241 | every character `trim` removes lies in the Basic Multilingual Plane and none is a visible ASCII character |
| Builtins.TrimStart | App.tsx:241 | the result is a suffix of the input, everything cut off is whitespace, and it does not start with whitespace |
| Builtins.TrimEnd | App.tsx:241 | the result is a prefix of the input, everything cut off is whitespace, and it does not end with whitespace |
| Builtins.Trim | App.tsx:241 | the result (the end-trim of the start-trim) is empty iff the input is all whitespace, and otherwise neither starts nor ends with whitespace |
| MessageService.SecondFallback | services/gemini.ts:21 | the failure greeting embeds the partner's name after its opening words and the author's name before its sign-off |
| MessageService.GenerateLoveMessage | services/gemini.ts:4-23 | the promise rejects (`None`) iff building the client at line 5 threw; otherwise the greeting is non-empty: a non-empty reply text is passed through, an empty or absent one gives the first fallback, a call that threw inside the `try` gives the second |
| AppRules.NextStep | App.tsx:36-41 | Next moves to index + 1 except at FINAL, which it leaves unchanged |
| AppRules.PrevStep | App.tsx:46-52 | Back moves to index - 1 except at WELCOME, which it leaves unchanged |
| AppRules.BackAfterNext | App.tsx:36-52 | Back after Next restores every step but FINAL |
| AppRules.NextAfterBack | App.tsx:36-52 | Next after Back restores every step but WELCOME |
| AppRules.NextTimesIndex | App.tsx:39-41 | `n` presses of Next advance `n` places but never past FINAL, which seven presses always reach |
| AppRules.Armed | App.tsx:67 | the auto-advance condition holds iff the step is TEASE_3 and all seven tap dots are filled |
| AppRules.UnlockEnabled | App.tsx:241 | the Generator forward button is enabled iff the message has a non-whitespace character |
| AppRules.ProgressDots | App.tsx:86-91 | the progress bar has one dot per step |
| AppRules.ProgressDotsShown | App.tsx:330 | the progress bar is shown exactly while it is not full (every step but FINAL) |
| AppRules.ProgressDotsFilled | App.tsx:86-91 | dot `i` is filled iff `i <= IndexOf(step)`, so `IndexOf(step) + 1` dots are filled, as a prefix; at every step but FINAL one dot stays empty |
| AppRules.TapDots | App.tsx:164-166 | the tap indicator has seven dots |
| AppRules.TapDotsFilled | App.tsx:164-166 | `min(clickCount, 7)` tap dots are filled, and all seven exactly when `clickCount >= 7` |
| App.Wizard.Valid | App.tsx:66-74 | a timer is pending iff `clickCount >= 7` on TEASE_3, under an already issued handle; so none is ever pending elsewhere or below seven taps |
| App.Wizard.constructor | App.tsx:18-22 | the first render is WELCOME with no taps, an empty message, not loading and no timer |
| App.Wizard.RunEffect | App.tsx:66-74 | if `step` or `clickCount` changed, the old timer is cleared and a fresh one armed iff `clickCount >= 7` on TEASE_3; otherwise nothing changes |
| App.Wizard.AdvanceFrom | App.tsx:36-41 | the `indexOf` lookup over the values moves to `NextStep(from)`, or changes nothing when `from` is FINAL |
| App.Wizard.Next | App.tsx:36-44 | step becomes `NextStep(step)`; taps, message and loading are untouched; the effect re-runs |
| App.Wizard.Back | App.tsx:46-52 | step becomes `PrevStep(step)`; nothing else changes but the effect's timer |
| App.Wizard.TeaseClick | App.tsx:54-57 | `clickCount` goes up by exactly one; step and message are untouched; the effect re-runs |
| App.Wizard.TimerElapsed | App.tsx:68-71 | the armed handle moves TEASE_3 to TEASE_4 and clears the taps and the timer; any other handle changes nothing |
| App.Wizard.SetMessage | App.tsx:228 | the message becomes the typed text verbatim; nothing else changes |
| App.Wizard.Unlock | App.tsx:239-241 | the forward button acts as Next iff `UnlockEnabled(message)`, and does nothing otherwise |
| App.Wizard.BeginGenerate | App.tsx:76-78 | loading is set and the request records the current step; nothing else changes |
| App.Wizard.CompleteGenerate | App.tsx:78-81 | if the adapter resolves, the message becomes its non-empty greeting, loading ends, and the step moves on from the recorded step; if it rejects, nothing changes and loading stays on |
| App.Wizard.GenerateMagic | App.tsx:76-82 | with nothing in between: if the adapter resolves, the message is its greeting, loading is off and the step advances exactly once, GENERATOR to FINAL; if it rejects, loading stays on and step and message are unchanged |
| App.Wizard.Replay | App.tsx:300-306 | from any state: WELCOME, no taps, empty message, no armed timer |
| App.ReachPowerUp | App.tsx:18-44 | from the first render, three presses of Next reach TEASE_3 with no taps and no timer |
| App.PowerUpScenario | App.tsx:54-74 | ensures: eight taps on TEASE_3, the stale and the live handle elapsing, then the live one again, end on TEASE_4 with no taps and no timer. Checked by asserts in the body, not in the contract: six taps arm nothing, the seventh arms the timer, the eighth replaces it, and only the live handle advances |
| App.BackCancelsScenario | App.tsx:46-74 | Back while the timer is armed clears it, so its handle no longer moves the wizard |

## Left out

- The remote text-generation call (`services/gemini.ts:8-16`) is outside the model. Its outcome is the `Response` input: a reply with or without text, a throw inside the `try`, or a throw while building the client at line 5. The error log line is not modelled.
- MessageService.GenerateLoveMessage: what makes building the client throw (reading `process.env`, the client's constructor) is not visible, so `ClientFailed` is a free input. The unhandled rejection it leads to is not modelled beyond the state it leaves.
- The 300 ms delay is not modelled. The timer elapsing is the explicit `TimerElapsed` event.
- Audio is not modelled: `startMusic`, `toggleMute`, `isMuted`, `audioRef`, and the pause and rewind in Replay (`App.tsx:24,28-34,59-64,305`).
- JSX rendering, styling and animation are not modelled. `components/FloatingHearts.tsx` and `components/PhotoUpload.tsx` are not part of this model.
- The `names` state never changes, so it is the two constants `PARTNER_NAME` and `MY_NAME`.
- `IMAGES`, `MUSIC_URL`, and the unused `MemoryData` and `ValentineState` interfaces (`types.ts:13-26`) are not modelled.
- Builtins.Trim: its contract does not restate that the result is one slice of the input. That follows from the contracts of `TrimStart` and `TrimEnd`, but proving it as one statement about `Trim` costs the solver too much.
- Builtins.IsWhitespace: JavaScript strings are UTF-16 code units and Dafny's `char` is a Unicode scalar value. Every character `trim` removes is in the Basic Multilingual Plane, so the two agree for this purpose. The space-separator set is the one in current Unicode.
- The UI offers each handler only on some screens. For example, Back is offered only on the Generator screen (line 238) and taps only on TEASE_3 (line 158). The model allows every operation in every state.
- `clickCount` is unbounded. A JavaScript number stays exact far beyond any reachable tap count.
