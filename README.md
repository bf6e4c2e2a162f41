# CareNavigator reception dashboard — a Dafny model

This project models the behaviour behind the CareNavigator agent dashboard, a
single React component for a hospital reception desk. Staff chat with a
canned "reception agent" and log patient check-ins into a register. Five
parts are modelled:

- **`text.dfy` (module `Text`)** covers the JavaScript string operations the
  component relies on:
  - `trim` with ECMAScript's whitespace set;
  - `toLowerCase`, for ASCII letters only;
  - `includes`;
  - `length`, counted in UTF-16 code units;
  - `split(" ")[0]`.
- **`ids.dfy` (module `Ids`)** covers `nextId`'s identifiers. An `Ident` is a
  prefix plus the counter value it was minted with, and `Render` produces the
  component's `prefix-N` string. Rendering is proved injective, so distinct
  identifiers are distinct strings. The decimal numeral is also proved to
  parse back.
- **`responder.dfy` (module `Responder`)** models `generateAgentResponse` as an
  ordered table of keyword groups and their replies. The lemmas cover:
  - priority: the first matching row wins;
  - the fallback answers exactly the inputs with no keyword;
  - the reply ignores letter case;
  - the table agrees with the source's chain of `if` tests on every input.
- **`slug.dfy` (module `Slug`)** models `slugify`. Its output uses only
  `[a-z0-9-]` with no `--`, slugifying twice changes nothing more, and every
  letter and digit is kept in order.
- **`session.dfy` (module `Session`)** models the component's state.
  - A session is a `SessionState` value changed by `Event`s:
    - typing into the message box;
    - `handleSend`;
    - a reply timer firing;
    - `handleFormSubmit`;
    - the notice timer firing.
  - Timers are explicit:
    - Each pending reply records its due time, and only the reply due first
      can fire.
    - Each accepted check-in schedules a notice timer due 5 s later.
  - Lemmas state what each step does. They also prove invariants that every
    step keeps, and therefore every sequence of events keeps:
    - visitor messages + 1 = agent messages + pending replies (the welcome
      message is the + 1), so each visitor message is either answered or
      still has its reply scheduled;
    - the typing flag shows only while a reply is pending;
    - when events come in time order, the conversation stays oldest first and
      the register newest first;
    - ids stay unique.
  - The class `Dashboard` keeps the same state in fields updated in place, as
    the component's hooks do. Each handler is a method proved to perform
    exactly one `Step`.

Wall-clock readings (`new Date()`, `Date.now()`) are parameters of the events
that read them. `formatTime`'s rendering of the arrival time is a string
parameter, `arrivalLabel`.

## Model

| member | source | states |
|---|---|---|
| Text.TrimShape | reception-agent/src/components/AgentDashboard.tsx:265 | `trim()` returns the infix left after dropping whitespace at both ends, and the result starts and ends with non-whitespace |
| Text.TrimEmptyIff | reception-agent/src/components/AgentDashboard.tsx:265-266 | the trimmed text is empty exactly when every character is whitespace |
| Text.TrimIdempotent | reception-agent/src/components/AgentDashboard.tsx:265 | trimming twice equals trimming once |
| Text.LowerIdempotent | reception-agent/src/components/AgentDashboard.tsx:145 | lower-casing twice equals lower-casing once |
| Text.Utf16Length | reception-agent/src/components/AgentDashboard.tsx:276 | `length` counts at least one and at most two code units per character |
| Text.FirstToken | reception-agent/src/components/AgentDashboard.tsx:312 | `split(" ")[0]` is the longest space-free prefix: it is a prefix, it has no space, and it stops at the end or at a space |
| Text.FirstTokenOfTrimmed | reception-agent/src/components/AgentDashboard.tsx:292-312 | a trimmed, non-blank name has a non-empty first name |
| Ids.Decimal | reception-agent/src/components/AgentDashboard.tsx:128 | the counter renders as a non-empty string of decimal digits |
| Ids.ParseDecimalOfDecimal | reception-agent/src/components/AgentDashboard.tsx:128 | the rendered numeral reads back as the counter value |
| Ids.SerialOfRender | reception-agent/src/components/AgentDashboard.tsx:126-129 | the digits after the last `-` of `prefix-N` read back as N, whatever the prefix |
| Ids.RenderInjective | reception-agent/src/components/AgentDashboard.tsx:126-129 | two identifiers render to the same string only when prefix and counter value are both equal |
| Responder.RepliesDistinct | reception-agent/src/components/AgentDashboard.tsx:146-195 | the seven replies are pairwise different, so a reply tells which branch answered |
| Responder.FirstMatch | reception-agent/src/components/AgentDashboard.tsx:144-196 | the index found is that of a matching rule with no matching rule before it; none is found exactly when no rule matches |
| Responder.ReplyOfRule | reception-agent/src/components/AgentDashboard.tsx:144-189 | rule k's reply is returned exactly when one of its keywords occurs in the lower-cased input and no keyword of an earlier rule does |
| Responder.FallbackIffNoKeyword | reception-agent/src/components/AgentDashboard.tsx:190-195 | the general acknowledgement is returned exactly when no keyword of any rule occurs |
| Responder.ReplyIgnoresCase | reception-agent/src/components/AgentDashboard.tsx:145 | inputs that differ only in ASCII letter case get the same reply, and so does the lower-cased input |
| Responder.RuleTests | reception-agent/src/components/AgentDashboard.tsx:146-185 | each table row matches exactly when the source's corresponding `includes` tests hold |
| Responder.TableAgreesWithIfChain | reception-agent/src/components/AgentDashboard.tsx:144-196 | the rule table answers every input exactly as the chain of `if` tests does |
| Responder.ScheduleFollowUpScenario | reception-agent/src/components/AgentDashboard.tsx:146-152 | the text "Schedule a follow-up" (the quick prompt's label) gets the scheduling offer |
| Responder.FollowUpPromptScenario | reception-agent/src/components/AgentDashboard.tsx:146-152 | the message the "Schedule a follow-up" quick prompt sends (line 37) gets the scheduling offer |
| Responder.WheelchairScenario | reception-agent/src/components/AgentDashboard.tsx:185-189 | "wheelchair please" passes the first five rules and gets the wheelchair dispatch |
| Slug.Collapse | reception-agent/src/components/AgentDashboard.tsx:123 | the replacement yields a slug, is empty only for empty input, and starts with the input's first character or `-` |
| Slug.SlugifyIsSlug | reception-agent/src/components/AgentDashboard.tsx:122-124 | a slug has only `[a-z0-9-]` and never `--` |
| Slug.CollapseOfSlug | reception-agent/src/components/AgentDashboard.tsx:123 | the replacement leaves a slug unchanged |
| Slug.SlugifyIdempotent | reception-agent/src/components/AgentDashboard.tsx:122-124 | slugifying twice equals slugifying once |
| Slug.SlugifyKeepsAlnums | reception-agent/src/components/AgentDashboard.tsx:122-124 | the slug keeps exactly the lower-cased input's letters and digits, in order |
| Session.ResponseDelay | reception-agent/src/components/AgentDashboard.tsx:276 | the reply delay lies between 1.2 s and 4 s and hits the 4 s cap exactly from 140 code units on |
| Session.ResponseDelayMonotone | reception-agent/src/components/AgentDashboard.tsx:276 | a longer message never gets a shorter delay |
| Session.ActiveCheckIns | reception-agent/src/components/AgentDashboard.tsx:326 | the panel shows the first min(n, 5) records of the register, in order |
| Session.ActiveCheckInsAfterPrepend | reception-agent/src/components/AgentDashboard.tsx:310-326 | a new record heads the panel, and the older records shift down, the fifth dropping out |
| Session.SendIgnoredIffBlank | reception-agent/src/components/AgentDashboard.tsx:264-266 | a send leaves the state unchanged exactly when its text, or the box when no text is given, is all whitespace |
| Session.SendLogsVisitorMessage | reception-agent/src/components/AgentDashboard.tsx:264-287 | a real send appends one visitor message with the trimmed text, the send time, no meta and the id `msg-N` for the bumped counter; it clears the box, raises the typing flag, and schedules one reply due exactly `now + ResponseDelay(trimmed)` (1.2–4 s later); the register, the notice and its timers are untouched |
| Session.DeliveryLogsAgentReply | reception-agent/src/components/AgentDashboard.tsx:277-287 | a firing reply timer appends the responder's answer with the firing time, meta "Auto-routed to reception log" and the id `msg-N` for the bumped counter; it removes exactly that timer, keeping the others in order, and lowers the typing flag even when other replies are still pending; the box, register and notice are untouched |
| Session.ShortLaterMessageAnsweredFirst | reception-agent/src/components/AgentDashboard.tsx:276-287 | a long message followed 100 ms later by a short one gets its reply second |
| Session.CheckInIgnoredIffIncomplete | reception-agent/src/components/AgentDashboard.tsx:290-299 | a submission changes nothing exactly when name, date of birth or reason is blank |
| Session.CheckInRecordsPatient | reception-agent/src/components/AgentDashboard.tsx:300-324 | an accepted submission adds a record `checkin-(n+1)`: Waiting, pending escort, arrival now, the trimmed fields, and the phone only when not blank. The record heads the register and the panel. The notice names the first name, and a timer to clear it is scheduled 5 s later. One system confirmation `msg-(n+2)` is logged with the confirmation text, the time and meta "EHR sync: success". The counter grows by two; replies, typing flag and box are untouched |
| Session.EarlierTimerClearsLaterNotice | reception-agent/src/components/AgentDashboard.tsx:311-314 | the first check-in's 5 s timer clears the second check-in's notice while the second timer is still scheduled |
| Session.RunGrowsRegisterByAccepted | reception-agent/src/components/AgentDashboard.tsx:297-310 | over any sequence of events, the register grows by exactly the number of accepted submissions |
| Session.InitialInvariants | reception-agent/src/components/AgentDashboard.tsx:130-256 | the mounted state is balanced, is not typing, and is in time order |
| Session.StepKeepsBalanced | reception-agent/src/components/AgentDashboard.tsx:264-288 | every step keeps visitor messages + 1 = agent messages + pending replies |
| Session.RunKeepsBalanced | reception-agent/src/components/AgentDashboard.tsx:264-288 | the balance holds after any sequence of events |
| Session.StepKeepsTypingMeansPending | reception-agent/src/components/AgentDashboard.tsx:275-286 | the typing flag is set only while some reply is pending |
| Session.StepKeepsChronological | reception-agent/src/components/AgentDashboard.tsx:264-324 | events in time order keep the conversation oldest first and the register newest first |
| Session.RunKeepsTypingMeansPending | reception-agent/src/components/AgentDashboard.tsx:275-286 | the typing flag is set only while some reply is pending, after any sequence of events |
| Session.RunKeepsChronological | reception-agent/src/components/AgentDashboard.tsx:264-324 | events in time order keep the conversation oldest first and the register newest first through any sequence of them |
| Session.MountedSessionInvariants | reception-agent/src/components/AgentDashboard.tsx:229-324 | from mount, after any time-ordered sequence of events the session is in time order, balanced, and typing only while a reply is pending |
| Session.StepKeepsIdsFresh | reception-agent/src/components/AgentDashboard.tsx:126-129 | if ids are unique and none exceeds the counter, every step keeps it so |
| Session.RunKeepsIdsFresh | reception-agent/src/components/AgentDashboard.tsx:126-129 | the same after any sequence of events |
| Session.SeededIdsRender | reception-agent/src/components/AgentDashboard.tsx:229-256 | the seeded identifiers render as `msg-0`, `checkin-1` and `checkin-2` |
| Session.InitialIdsNotFresh | reception-agent/src/components/AgentDashboard.tsx:229-249 | as mounted, a seeded id is ahead of the counter |
| Session.FirstCheckInReusesSeededId | reception-agent/src/components/AgentDashboard.tsx:229-302 | as mounted, the first accepted check-in gets `checkin-1`, the id of a seeded record |
| Session.ReseededRunIdsFresh | reception-agent/src/components/AgentDashboard.tsx:229-255 | with the counter started past the seeded ids, ids stay unique through any sequence of events |
| Session.Dashboard.constructor | reception-agent/src/components/AgentDashboard.tsx:229-256 | mounting yields the initial state, with the counter at 0 and no id issued |
| Session.Dashboard.Reseeded | reception-agent/src/components/AgentDashboard.tsx:229-255 | mounting with the seeded records numbered by `nextId` yields the corrected initial state |
| Session.Dashboard.NextId | reception-agent/src/components/AgentDashboard.tsx:126-129 | bumps the counter and returns `prefix-N` for the new value, an id not issued before |
| Session.Dashboard.SetInputValue | reception-agent/src/components/AgentDashboard.tsx:486 | the message box's change handler performs the typing step |
| Session.Dashboard.HandleSend | reception-agent/src/components/AgentDashboard.tsx:264-288 | `handleSend` performs exactly the send step and keeps the issued ids consistent |
| Session.Dashboard.DeliverReply | reception-agent/src/components/AgentDashboard.tsx:277-287 | the reply timer callback performs exactly the delivery step |
| Session.Dashboard.HandleFormSubmit | reception-agent/src/components/AgentDashboard.tsx:290-324 | `handleFormSubmit` performs exactly the check-in step |
| Session.Dashboard.ExpireNotice | reception-agent/src/components/AgentDashboard.tsx:314 | the notice timer callback clears the notice and removes its timer |

## Left out

- Rendering (JSX, styling) and the static tables are not modelled: quick prompts, department queue, triage suggestions and daily briefing. They only display data.
- `formatTime` and `relativeTimeFromNow` are not modelled. They are locale formatting through `Intl`. The confirmation message takes the formatted arrival time as the string parameter `arrivalLabel`.
- The 30-second `now` tick and its interval cleanup are not modelled. They only refresh relative times on screen.
- Dates are integer milliseconds, supplied with each event. The model does not read a clock.
- Each event carries a single timestamp. The source reads the clock more than once in one handler: for the arrival and then for the confirmation when a form is submitted (lines 306 and 320), and three times at mount (lines 132, 242 and 252). The model gives all readings in one event the same value.
- Timer ordering is simplified. The browser runs timers with equal due times in the order they were started; the model orders them by when they were scheduled, which is the same thing here. Timers firing after unmount are not modelled.
- Text.Lower: lowers only ASCII `A`–`Z`, whereas JavaScript's `toLowerCase` also maps letters of other scripts. All the responder's keywords are ASCII.
- The form's `reset()` is not modelled. The form is uncontrolled, so its field values are not component state; each submission carries its own values.
- A form field missing from `FormData` is not modelled: `get` returns `null`, and `?.trim()` then yields `undefined`. The model always has four strings.
- The id counter is an unbounded natural. JavaScript numbers are exact up to 2^53, so the difference never shows in a session.
- Ids are held as `Ident` values, prefix plus counter value. Their strings are `Render(id)`. `RenderInjective` makes uniqueness of identifiers the same as uniqueness of the strings.

## Findings

| source | as written | input that shows it | evidently intended | confidence | as-written member | corrected member |
|---|---|---|---|---|---|---|
| reception-agent/src/components/AgentDashboard.tsx:229-249 | the id counter starts at 0, but the two seeded records hard-code `checkin-1` and `checkin-2` | mount, then submit a complete check-in form before sending anything: the new record is `checkin-1`, as is Michael Torres's seeded record (after one message, while its reply is still pending, it is `checkin-2`, Priya Patel's; the reply uses up a counter value too) | every record in the register has a unique id (the ids are list keys) | not executed | Session.FirstCheckInReusesSeededId | Session.ReseededRunIdsFresh |

`Session.Dashboard.Reseeded` is the corrected mount: it numbers the seeded
records through `NextId`, which leaves the counter at 2.
`Session.ReseededRunIdsFresh` proves that from this state ids stay unique in
both lists after any sequence of events.
