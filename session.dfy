/** The dashboard component's session: the conversation, the message box,
    the typing flag, the shared id counter, the check-in register, the
    success notice, and the timers that deliver replies and clear the notice.

    A session is a value (`SessionState`) changed by events (`Event`,
    `Step`); `Dashboard` holds the same state in fields updated in place,
    the way the component's hooks do, and each of its methods is proved to
    perform exactly one step. */
module Session {
  import opened Text
  import opened Ids
  import Responder

  /** A `Date`, as milliseconds since the epoch. */
  type Timestamp = int

  datatype Option<T> = None | Some(value: T)

  datatype Author = Agent | Visitor | System

  datatype Message = Message(id: Ident, author: Author, text: string, createdAt: Timestamp, meta: Option<string>)

  datatype Status = Waiting | Roomed | InProgress

  datatype CheckIn = CheckIn(
    id: Ident,
    name: string,
    dob: string,
    reason: string,
    status: Status,
    arrival: Timestamp,
    location: string,
    phone: Option<string>)

  /** The four fields of the check-in form, as submitted. */
  datatype CheckInForm = CheckInForm(name: string, dob: string, phone: string, reason: string)

  /** A scheduled reply: the visitor's trimmed text and when its timer is due. */
  datatype PendingReply = PendingReply(trimmed: string, due: Timestamp)

  datatype SessionState = SessionState(
    conversation: seq<Message>,
    inputValue: string,
    isAgentTyping: bool,
    idCounter: nat,
    checkIns: seq<CheckIn>,
    checkInSuccess: Option<string>,
    /** Reply timers not yet fired, in the order they were scheduled. */
    pending: seq<PendingReply>,
    /** Due times of the notice-clearing timers not yet fired. */
    noticeDue: seq<Timestamp>)

  const Minute: int := 60000
  const NoticeLifetime: int := 5000
  const MaxActive: nat := 5
  const MsgPrefix := "msg"
  const CheckInPrefix := "checkin"
  const WelcomeText := "Hi there! I'm CareNavigator, your virtual reception partner."
    + " I can help you check patients in, track wait times, guide visitors,"
    + " and coordinate with clinical teams. How can I support you right now?"
  const WelcomeMeta := "Live from Pavilion Lobby"
  const ReplyMeta := "Auto-routed to reception log"
  const SyncMeta := "EHR sync: success"
  const PendingEscort := "Lobby - Pending escort"

  function Min(a: int, b: int): int {
    if a < b then a else b
  }

  /** How long the agent "types" before answering: 1.2 s plus 20 ms per
      UTF-16 code unit of the trimmed message, capped at 4 s. */
  function ResponseDelay(trimmed: string): (d: int)
    ensures 1200 <= d <= 4000
    ensures d == 4000 <==> Utf16Length(trimmed) >= 140
  {
    Min(1200 + 20 * Utf16Length(trimmed), 4000)
  }

  /** A longer message never gets a quicker reply. */
  lemma ResponseDelayMonotone(a: string, b: string)
    requires Utf16Length(a) <= Utf16Length(b)
    ensures ResponseDelay(a) <= ResponseDelay(b)
  {
  }

  /** The register panel shows the first five records, newest first. */
  function ActiveCheckIns(checkIns: seq<CheckIn>): (r: seq<CheckIn>)
    ensures |r| == Min(|checkIns|, MaxActive)
    ensures forall i :: 0 <= i < |r| ==> r[i] == checkIns[i]
  {
    if |checkIns| <= MaxActive then checkIns else checkIns[..MaxActive]
  }

  /** A new record heads the panel and pushes the fifth one out. */
  lemma ActiveCheckInsAfterPrepend(c: CheckIn, cs: seq<CheckIn>)
    ensures ActiveCheckIns([c] + cs) == ([c] + ActiveCheckIns(cs))[..Min(|cs| + 1, MaxActive)]
  {
    var l := ActiveCheckIns([c] + cs);
    var r := ([c] + ActiveCheckIns(cs))[..Min(|cs| + 1, MaxActive)];
    assert |l| == |r|;
    forall i | 0 <= i < |l|
      ensures l[i] == r[i]
    {
      if i > 0 {
        assert l[i] == cs[i - 1];
      }
    }
  }

  function SuccessNotice(name: string, reason: string): string {
    "Checked in " + FirstToken(name) + " \U{2014} notified " + reason + " team."
  }

  function ConfirmationText(name: string, reason: string, arrivalLabel: string): string {
    "Check-in created for " + name + " (" + reason + "). Arrival logged at " + arrivalLabel + "."
  }

  function SeededCheckIns(now: Timestamp): seq<CheckIn> {
    [ CheckIn(Ident(CheckInPrefix, 1), "Michael Torres", "1988-11-03", "Cardiology consult", Waiting,
              now - 12 * Minute, "Lobby - Seat 6B", Some("(415) 555-2189")),
      CheckIn(Ident(CheckInPrefix, 2), "Priya Patel", "1994-04-12", "Radiology follow-up", Roomed,
              now - 28 * Minute, "Radiology - Bay 3", None) ]
  }

  /** The state the component mounts with at time `now`: the welcome message,
      two seeded records, and the id counter at 0. */
  function InitialState(now: Timestamp): SessionState {
    SessionState(
      [Message(Ident(MsgPrefix, 0), Agent, WelcomeText, now, Some(WelcomeMeta))],
      "", false, 0, SeededCheckIns(now), None, [], [])
  }

  /** The same, with the counter past the seeded records' ids. */
  function ReseededState(now: Timestamp): SessionState {
    InitialState(now).(idCounter := 2)
  }

  /** `handleSend(message?)`: the argument, or the message box when there is
      none, is trimmed; blank input is ignored; otherwise the visitor's message
      is logged, the box cleared, the typing flag raised and a reply timer
      scheduled. */
  function AfterSend(s: SessionState, message: Option<string>, now: Timestamp): SessionState {
    var trimmed := Trim(if message.Some? then message.value else s.inputValue);
    if trimmed == [] then s
    else
      s.(conversation := s.conversation + [Message(Ident(MsgPrefix, s.idCounter + 1), Visitor, trimmed, now, None)],
         inputValue := "",
         isAgentTyping := true,
         idCounter := s.idCounter + 1,
         pending := s.pending + [PendingReply(trimmed, now + ResponseDelay(trimmed))])
  }

  /** Reply `k` is the timer the event loop runs next: none is due earlier,
      and among those due at the same time it was scheduled first. */
  predicate NextToFire(pending: seq<PendingReply>, k: int) {
    0 <= k < |pending|
    && (forall j :: 0 <= j < |pending| ==> pending[k].due <= pending[j].due)
    && (forall j :: 0 <= j < k ==> pending[j].due != pending[k].due)
  }

  /** A reply timer fires: the agent's answer, numbered when it fires, is
      logged and the typing flag is lowered. */
  function AfterDelivery(s: SessionState, k: nat, now: Timestamp): SessionState
    requires k < |s.pending|
  {
    var reply := Message(Ident(MsgPrefix, s.idCounter + 1), Agent,
                         Responder.GenerateAgentResponse(s.pending[k].trimmed), now, Some(ReplyMeta));
    s.(conversation := s.conversation + [reply],
       isAgentTyping := false,
       idCounter := s.idCounter + 1,
       pending := s.pending[..k] + s.pending[k + 1..])
  }

  /** The form passes when name, date of birth and reason are not blank. */
  predicate Accepted(form: CheckInForm) {
    Trim(form.name) != [] && Trim(form.dob) != [] && Trim(form.reason) != []
  }

  /** `handleFormSubmit`: trims the four fields and ignores the submission
      when a required one is blank; otherwise puts the new record first,
      shows the success notice and schedules its removal, and logs a system
      confirmation. `arrivalLabel` is the arrival time as the clock renders
      it. */
  function AfterCheckIn(s: SessionState, form: CheckInForm, now: Timestamp, arrivalLabel: string): SessionState {
    var name := Trim(form.name);
    var dob := Trim(form.dob);
    var phone := Trim(form.phone);
    var reason := Trim(form.reason);
    if name == [] || dob == [] || reason == [] then s
    else
      var record := CheckIn(Ident(CheckInPrefix, s.idCounter + 1), name, dob, reason, Waiting, now,
                            PendingEscort, if phone == [] then None else Some(phone));
      var confirmation := Message(Ident(MsgPrefix, s.idCounter + 2), System,
                                  ConfirmationText(name, reason, arrivalLabel), now, Some(SyncMeta));
      s.(checkIns := [record] + s.checkIns,
         checkInSuccess := Some(SuccessNotice(name, reason)),
         noticeDue := s.noticeDue + [now + NoticeLifetime],
         conversation := s.conversation + [confirmation],
         idCounter := s.idCounter + 2)
  }

  /** The oldest notice timer fires and clears whatever notice is showing. */
  function AfterNoticeExpiry(s: SessionState): SessionState
    requires s.noticeDue != []
  {
    s.(checkInSuccess := None, noticeDue := s.noticeDue[1..])
  }

  /** What can happen to a mounted dashboard. */
  datatype Event =
    | Typed(text: string)
    | SendRequested(message: Option<string>, at: Timestamp)
    | ReplyTimerFired(k: nat, at: Timestamp)
    | FormSubmitted(form: CheckInForm, at: Timestamp, arrivalLabel: string)
    | NoticeTimerFired(at: Timestamp)

  /** Timers fire only when due, reply timers in due order. */
  predicate Enabled(s: SessionState, e: Event) {
    match e
    case ReplyTimerFired(k, at) => NextToFire(s.pending, k) && s.pending[k].due <= at
    case NoticeTimerFired(at) => s.noticeDue != [] && s.noticeDue[0] <= at
    case _ => true
  }

  function Step(s: SessionState, e: Event): SessionState
    requires Enabled(s, e)
  {
    match e
    case Typed(text) => s.(inputValue := text)
    case SendRequested(message, at) => AfterSend(s, message, at)
    case ReplyTimerFired(k, at) => AfterDelivery(s, k, at)
    case FormSubmitted(form, at, shown) => AfterCheckIn(s, form, at, shown)
    case NoticeTimerFired(_) => AfterNoticeExpiry(s)
  }

  predicate RunEnabled(s: SessionState, es: seq<Event>)
    decreases |es|
  {
    es == [] || (Enabled(s, es[0]) && RunEnabled(Step(s, es[0]), es[1..]))
  }

  function Run(s: SessionState, es: seq<Event>): SessionState
    requires RunEnabled(s, es)
    decreases |es|
  {
    if es == [] then s else Run(Step(s, es[0]), es[1..])
  }

  // ---------------------------------------------------------------- sending

  /** A send changes nothing exactly when the text it would send is blank. */
  lemma SendIgnoredIffBlank(s: SessionState, message: Option<string>, now: Timestamp)
    ensures var raw := if message.Some? then message.value else s.inputValue;
      AfterSend(s, message, now) == s <==> forall i :: 0 <= i < |raw| ==> IsWhitespace(raw[i])
  {
    var raw := if message.Some? then message.value else s.inputValue;
    TrimEmptyIff(raw);
  }

  /** A send that is not ignored logs one visitor message carrying the trimmed
      text and a fresh id, empties the box, and schedules one reply. */
  lemma SendLogsVisitorMessage(s: SessionState, message: Option<string>, now: Timestamp)
    requires Trim(if message.Some? then message.value else s.inputValue) != []
    ensures var t := AfterSend(s, message, now);
      var trimmed := Trim(if message.Some? then message.value else s.inputValue);
      && |t.conversation| == |s.conversation| + 1
      && t.conversation[..|s.conversation|] == s.conversation
      && t.conversation[|s.conversation|].author == Visitor
      && t.conversation[|s.conversation|].text == trimmed
      && t.conversation[|s.conversation|].createdAt == now
      && t.conversation[|s.conversation|].meta == None
      && t.conversation[|s.conversation|].id.prefix == MsgPrefix
      && t.conversation[|s.conversation|].id.serial == t.idCounter == s.idCounter + 1
      && t.inputValue == [] && t.isAgentTyping
      && t.pending[..|s.pending|] == s.pending && |t.pending| == |s.pending| + 1
      && t.pending[|s.pending|].trimmed == trimmed
      && t.pending[|s.pending|].due == now + ResponseDelay(trimmed)
      && now + 1200 <= t.pending[|s.pending|].due <= now + 4000
      && t.checkIns == s.checkIns && t.checkInSuccess == s.checkInSuccess
      && t.noticeDue == s.noticeDue
  {
  }

  /** A reply answers the message it was scheduled for with the responder's
      text, and lowers the typing flag even when other replies are still
      scheduled. */
  lemma DeliveryLogsAgentReply(s: SessionState, k: nat, now: Timestamp)
    requires k < |s.pending|
    ensures var t := AfterDelivery(s, k, now);
      && |t.conversation| == |s.conversation| + 1
      && t.conversation[..|s.conversation|] == s.conversation
      && t.conversation[|s.conversation|].author == Agent
      && t.conversation[|s.conversation|].text == Responder.GenerateAgentResponse(s.pending[k].trimmed)
      && t.conversation[|s.conversation|].createdAt == now
      && t.conversation[|s.conversation|].meta == Some(ReplyMeta)
      && t.conversation[|s.conversation|].id.prefix == MsgPrefix
      && t.conversation[|s.conversation|].id.serial == t.idCounter == s.idCounter + 1
      && !t.isAgentTyping
      && |t.pending| == |s.pending| - 1
      && t.pending == s.pending[..k] + s.pending[k + 1..]
      && multiset(t.pending) + multiset{s.pending[k]} == multiset(s.pending)
      && (|s.pending| >= 2 ==> t.pending != [])
      && t.inputValue == s.inputValue && t.checkIns == s.checkIns
      && t.checkInSuccess == s.checkInSuccess && t.noticeDue == s.noticeDue
  {
    assert s.pending == s.pending[..k] + [s.pending[k]] + s.pending[k + 1..];
  }

  /** Replies race: a long message followed 100 ms later by a short one is
      answered second, because its delay is longer by more than 100 ms. */
  lemma ShortLaterMessageAnsweredFirst(s: SessionState, long: string, short: string)
    requires s.pending == []
    requires Trim(long) == long && Utf16Length(long) >= 140
    requires Trim(short) == short && short != [] && Utf16Length(short) <= 100
    ensures var t := AfterSend(AfterSend(s, Some(long), 0), Some(short), 100);
      |t.pending| == 2 && NextToFire(t.pending, 1) && !NextToFire(t.pending, 0)
  {
    assert long != [];
  }

  // -------------------------------------------------------------- check-ins

  /** A submission changes nothing exactly when a required field is blank. */
  lemma CheckInIgnoredIffIncomplete(s: SessionState, form: CheckInForm, now: Timestamp, arrivalLabel: string)
    ensures AfterCheckIn(s, form, now, arrivalLabel) == s <==> !Accepted(form)
  {
    if Accepted(form) {
      assert |AfterCheckIn(s, form, now, arrivalLabel).checkIns| == |s.checkIns| + 1;
    }
  }

  /** An accepted submission puts a waiting record with the trimmed fields at
      the head of the register and of its panel, keeps the older records
      behind it, announces the patient by first name, and logs one system
      confirmation. */
  lemma CheckInRecordsPatient(s: SessionState, form: CheckInForm, now: Timestamp, arrivalLabel: string)
    requires Accepted(form)
    ensures var t := AfterCheckIn(s, form, now, arrivalLabel);
      var r := t.checkIns[0];
      && t.checkIns[1..] == s.checkIns
      && r.id == Ident(CheckInPrefix, s.idCounter + 1)
      && r.name == Trim(form.name) && r.dob == Trim(form.dob) && r.reason == Trim(form.reason)
      && r.status == Waiting && r.arrival == now && r.location == PendingEscort
      && (r.phone == None <==> Trim(form.phone) == [])
      && (r.phone != None ==> r.phone.value == Trim(form.phone))
      && ActiveCheckIns(t.checkIns)[0] == r
      && t.checkInSuccess == Some(SuccessNotice(r.name, r.reason))
      && FirstToken(r.name) != []
      && |t.conversation| == |s.conversation| + 1
      && t.conversation[..|s.conversation|] == s.conversation
      && t.conversation[|s.conversation|].author == System
      && t.conversation[|s.conversation|].text == ConfirmationText(r.name, r.reason, arrivalLabel)
      && t.conversation[|s.conversation|].createdAt == now
      && t.conversation[|s.conversation|].meta == Some(SyncMeta)
      && t.conversation[|s.conversation|].id == Ident(MsgPrefix, s.idCounter + 2)
      && t.idCounter == s.idCounter + 2
      && t.noticeDue == s.noticeDue + [now + NoticeLifetime]
      && t.pending == s.pending && t.isAgentTyping == s.isAgentTyping
      && t.inputValue == s.inputValue
  {
    FirstTokenOfTrimmed(form.name);
  }

  /** Notice timers are not cancelled: the timer of an earlier check-in
      clears the notice of a later one, while that one's timer is still
      scheduled. */
  lemma EarlierTimerClearsLaterNotice(s: SessionState, first: CheckInForm, second: CheckInForm, shown: string)
    requires s.noticeDue == [] && Accepted(first) && Accepted(second)
    ensures var t := AfterCheckIn(AfterCheckIn(s, first, 0, shown), second, 1000, shown);
      && t.checkInSuccess == Some(SuccessNotice(Trim(second.name), Trim(second.reason)))
      && Enabled(t, NoticeTimerFired(NoticeLifetime))
      && Step(t, NoticeTimerFired(NoticeLifetime)).checkInSuccess == None
      && Step(t, NoticeTimerFired(NoticeLifetime)).noticeDue == [1000 + NoticeLifetime]
  {
  }

  /** How many submissions in `es` pass validation. */
  function AcceptedCount(es: seq<Event>): nat {
    if es == [] then 0
    else AcceptedCount(es[..|es| - 1]) + (if es[|es| - 1].FormSubmitted? && Accepted(es[|es| - 1].form) then 1 else 0)
  }

  lemma {:induction false} RunSplit(s: SessionState, es: seq<Event>)
    requires es != [] && RunEnabled(s, es)
    ensures RunEnabled(s, es[..|es| - 1])
    ensures Enabled(Run(s, es[..|es| - 1]), es[|es| - 1])
    ensures Run(s, es) == Step(Run(s, es[..|es| - 1]), es[|es| - 1])
    decreases |es|
  {
    if |es| > 1 {
      RunSplit(Step(s, es[0]), es[1..]);
      assert es[1..][..|es[1..]| - 1] == es[..|es| - 1][1..];
    }
  }

  /** The register grows by one record per accepted submission and by
      nothing else. */
  lemma {:induction false} RunGrowsRegisterByAccepted(s: SessionState, es: seq<Event>)
    requires RunEnabled(s, es)
    ensures |Run(s, es).checkIns| == |s.checkIns| + AcceptedCount(es)
    decreases |es|
  {
    if es != [] {
      var init := es[..|es| - 1];
      RunSplit(s, es);
      RunGrowsRegisterByAccepted(s, init);
      var e := es[|es| - 1];
      if e.FormSubmitted? {
        CheckInIgnoredIffIncomplete(Run(s, init), e.form, e.at, e.arrivalLabel);
      }
    }
  }

  // ------------------------------------------------------------- invariants

  function CountBy(msgs: seq<Message>, a: Author): nat {
    if msgs == [] then 0
    else CountBy(msgs[..|msgs| - 1], a) + (if msgs[|msgs| - 1].author == a then 1 else 0)
  }

  /** Every visitor message gets exactly one reply: the welcome message aside,
      agent messages plus scheduled replies match visitor messages. */
  predicate Balanced(s: SessionState) {
    CountBy(s.conversation, Visitor) + 1 == CountBy(s.conversation, Agent) + |s.pending|
  }

  /** The typing indicator shows only while a reply is scheduled. */
  predicate TypingMeansPending(s: SessionState) {
    s.isAgentTyping ==> s.pending != []
  }

  /** The conversation is in time order, the register newest first, and
      nothing is later than `clock`. */
  predicate Chronological(s: SessionState, clock: Timestamp) {
    (forall i, j :: 0 <= i < j < |s.conversation| ==> s.conversation[i].createdAt <= s.conversation[j].createdAt)
    && (forall i :: 0 <= i < |s.conversation| ==> s.conversation[i].createdAt <= clock)
    && (forall i, j :: 0 <= i < j < |s.checkIns| ==> s.checkIns[i].arrival >= s.checkIns[j].arrival)
    && (forall i :: 0 <= i < |s.checkIns| ==> s.checkIns[i].arrival <= clock)
  }

  /** Ids are unique within the conversation and within the register, and
      none was minted from a counter value not yet reached. */
  predicate IdsFresh(s: SessionState) {
    var c := s.conversation;
    var r := s.checkIns;
    (forall i, j :: 0 <= i < j < |c| ==> c[i].id != c[j].id)
    && (forall i, j :: 0 <= i < j < |r| ==> r[i].id != r[j].id)
    && (forall i :: 0 <= i < |c| ==> c[i].id.serial <= s.idCounter)
    && (forall i :: 0 <= i < |r| ==> r[i].id.serial <= s.idCounter)
  }

  lemma InitialInvariants(now: Timestamp)
    ensures Balanced(InitialState(now)) && TypingMeansPending(InitialState(now))
    ensures Chronological(InitialState(now), now)
  {
    var c := InitialState(now).conversation;
    assert c[..0] == [];
  }

  lemma CountByAppend(msgs: seq<Message>, m: Message, a: Author)
    ensures CountBy(msgs + [m], a) == CountBy(msgs, a) + (if m.author == a then 1 else 0)
  {
    assert (msgs + [m])[..|msgs|] == msgs;
  }

  /** Logging one message of author `m.author` shifts the balance by one on
      that author's side only. */
  lemma LogKeepsBalanced(s: SessionState, t: SessionState, m: Message)
    requires t.conversation == s.conversation + [m]
    requires m.author == Visitor ==> |t.pending| == |s.pending| + 1
    requires m.author == Agent ==> |t.pending| + 1 == |s.pending|
    requires m.author == System ==> |t.pending| == |s.pending|
    requires Balanced(s)
    ensures Balanced(t)
  {
    CountByAppend(s.conversation, m, Visitor);
    CountByAppend(s.conversation, m, Agent);
  }

  lemma StepKeepsBalanced(s: SessionState, e: Event)
    requires Enabled(s, e) && Balanced(s)
    ensures Balanced(Step(s, e))
  {
    var t := Step(s, e);
    match e {
      case SendRequested(message, at) =>
        if t != s {
          LogKeepsBalanced(s, t, t.conversation[|s.conversation|]);
        }
      case ReplyTimerFired(k, at) =>
        LogKeepsBalanced(s, t, t.conversation[|s.conversation|]);
      case FormSubmitted(form, at, shown) =>
        if t != s {
          LogKeepsBalanced(s, t, t.conversation[|s.conversation|]);
        }
      case Typed(_) =>
      case NoticeTimerFired(_) =>
    }
  }

  lemma StepKeepsTypingMeansPending(s: SessionState, e: Event)
    requires Enabled(s, e) && TypingMeansPending(s)
    ensures TypingMeansPending(Step(s, e))
  {
  }

  /** Events arriving in time order keep the conversation chronological and
      the register newest first. */
  lemma StepKeepsChronological(s: SessionState, e: Event, clock: Timestamp)
    requires Enabled(s, e) && Chronological(s, clock)
    requires !e.Typed? ==> clock <= e.at
    ensures Chronological(Step(s, e), if e.Typed? then clock else e.at)
  {
  }

  /** A value appended with a serial past the bound is new. */
  lemma AppendFreshMessage(c: seq<Message>, m: Message, bound: nat)
    requires forall i, j :: 0 <= i < j < |c| ==> c[i].id != c[j].id
    requires forall i :: 0 <= i < |c| ==> c[i].id.serial <= bound
    requires m.id.serial > bound
    ensures forall i, j :: 0 <= i < j < |c + [m]| ==> (c + [m])[i].id != (c + [m])[j].id
  {
  }

  lemma StepKeepsIdsFresh(s: SessionState, e: Event)
    requires Enabled(s, e) && IdsFresh(s)
    ensures IdsFresh(Step(s, e))
  {
    var n := s.idCounter;
    var t := Step(s, e);
    if t.conversation != s.conversation {
      var m := t.conversation[|t.conversation| - 1];
      assert t.conversation == s.conversation + [m];
      AppendFreshMessage(s.conversation, m, n);
    }
    if t.checkIns != s.checkIns {
      var r := t.checkIns;
      assert r == [r[0]] + s.checkIns;
      assert r[0].id.serial == n + 1;
      forall i, j | 0 <= i < j < |r|
        ensures r[i].id != r[j].id
      {
        if i == 0 {
          assert r[j].id.serial <= n;
        } else {
          assert r[i] == s.checkIns[i - 1] && r[j] == s.checkIns[j - 1];
        }
      }
    }
  }

  /** Fresh ids stay fresh for the rest of any session. */
  lemma {:induction false} RunKeepsIdsFresh(s: SessionState, es: seq<Event>)
    requires RunEnabled(s, es) && IdsFresh(s)
    ensures IdsFresh(Run(s, es))
    decreases |es|
  {
    if es != [] {
      StepKeepsIdsFresh(s, es[0]);
      RunKeepsIdsFresh(Step(s, es[0]), es[1..]);
    }
  }

  /** Balance holds for the whole of any session from mount. */
  lemma {:induction false} RunKeepsBalanced(s: SessionState, es: seq<Event>)
    requires RunEnabled(s, es) && Balanced(s)
    ensures Balanced(Run(s, es))
    decreases |es|
  {
    if es != [] {
      StepKeepsBalanced(s, es[0]);
      RunKeepsBalanced(Step(s, es[0]), es[1..]);
    }
  }

  /** The typing indicator shows only while a reply is scheduled, for the
      whole of any session. */
  lemma {:induction false} RunKeepsTypingMeansPending(s: SessionState, es: seq<Event>)
    requires RunEnabled(s, es) && TypingMeansPending(s)
    ensures TypingMeansPending(Run(s, es))
    decreases |es|
  {
    if es != [] {
      StepKeepsTypingMeansPending(s, es[0]);
      RunKeepsTypingMeansPending(Step(s, es[0]), es[1..]);
    }
  }

  /** The time after event `e`, when the time before it was `clock`: typing
      reads no clock. */
  function ClockAfter(e: Event, clock: Timestamp): Timestamp {
    if e.Typed? then clock else e.at
  }

  /** The events read the clock in non-decreasing order, starting at `clock`. */
  predicate TimeOrdered(es: seq<Event>, clock: Timestamp)
    decreases |es|
  {
    es == [] || ((es[0].Typed? || clock <= es[0].at) && TimeOrdered(es[1..], ClockAfter(es[0], clock)))
  }

  /** The time after the last event of `es`. */
  function LastClock(es: seq<Event>, clock: Timestamp): Timestamp
    decreases |es|
  {
    if es == [] then clock else LastClock(es[1..], ClockAfter(es[0], clock))
  }

  /** Events in time order keep the conversation oldest first and the
      register newest first, for the whole of any session. */
  lemma {:induction false} RunKeepsChronological(s: SessionState, es: seq<Event>, clock: Timestamp)
    requires RunEnabled(s, es) && Chronological(s, clock) && TimeOrdered(es, clock)
    ensures Chronological(Run(s, es), LastClock(es, clock))
    decreases |es|
  {
    if es != [] {
      StepKeepsChronological(s, es[0], clock);
      RunKeepsChronological(Step(s, es[0]), es[1..], ClockAfter(es[0], clock));
    }
  }

  /** From mount, every session whose events come in time order has its
      conversation oldest first and its register newest first, with each
      visitor message either answered or still awaiting its one reply. */
  lemma MountedSessionInvariants(now: Timestamp, es: seq<Event>)
    requires RunEnabled(InitialState(now), es) && TimeOrdered(es, now)
    ensures var t := Run(InitialState(now), es);
      Chronological(t, LastClock(es, now)) && Balanced(t) && TypingMeansPending(t)
  {
    InitialInvariants(now);
    RunKeepsChronological(InitialState(now), es, now);
    RunKeepsBalanced(InitialState(now), es);
    RunKeepsTypingMeansPending(InitialState(now), es);
  }

  // ------------------------------------------------------- the id collision

  /** The seeded ids are the strings the component hard-codes. */
  lemma SeededIdsRender()
    ensures Render(Ident(MsgPrefix, 0)) == "msg-0"
    ensures Render(Ident(CheckInPrefix, 1)) == "checkin-1" && Render(Ident(CheckInPrefix, 2)) == "checkin-2"
  {
  }

  /** As mounted, the seeded records carry ids the counter has not reached. */
  lemma InitialIdsNotFresh(now: Timestamp)
    ensures !IdsFresh(InitialState(now))
  {
    assert InitialState(now).checkIns[1].id.serial == 2;
  }

  /** As mounted, the first accepted check-in is numbered `checkin-1`, the id
      of a seeded record. */
  lemma FirstCheckInReusesSeededId(now: Timestamp, form: CheckInForm, arrivalLabel: string)
    requires Accepted(form)
    ensures var t := AfterCheckIn(InitialState(now), form, now, arrivalLabel);
      t.checkIns[0].id == t.checkIns[1].id && Render(t.checkIns[0].id) == "checkin-1"
      && !IdsFresh(t)
  {
    SeededIdsRender();
  }

  /** With the counter started past the seeded ids, every id of every session
      is unique in its list. */
  lemma ReseededRunIdsFresh(now: Timestamp, es: seq<Event>)
    requires RunEnabled(ReseededState(now), es)
    ensures IdsFresh(Run(ReseededState(now), es))
  {
    var s := ReseededState(now);
    assert IdsFresh(s);
    RunKeepsIdsFresh(s, es);
  }

  // ---------------------------------------------------------- the component

  /** The mounted component: each hook's state is a field, and each handler
      or timer callback a method that updates them in place. */
  class Dashboard {
    var conversation: seq<Message>
    var inputValue: string
    var isAgentTyping: bool
    var idCounter: nat
    var checkIns: seq<CheckIn>
    var checkInSuccess: Option<string>
    var pending: seq<PendingReply>
    var noticeDue: seq<Timestamp>
    /** Every id `NextId` has returned, in order. */
    ghost var issued: seq<Ident>

    function Snapshot(): SessionState
      reads this
    {
      SessionState(conversation, inputValue, isAgentTyping, idCounter, checkIns, checkInSuccess, pending, noticeDue)
    }

    /** The i-th id handed out carries serial i + 1. */
    ghost predicate Valid()
      reads this
    {
      |issued| == idCounter && forall i :: 0 <= i < |issued| ==> issued[i].serial == i + 1
    }

    /** Mounts as written: the counter starts at 0. */
    constructor (now: Timestamp)
      ensures Snapshot() == InitialState(now) && Valid() && issued == []
    {
      conversation := InitialState(now).conversation;
      inputValue := "";
      isAgentTyping := false;
      idCounter := 0;
      checkIns := SeededCheckIns(now);
      checkInSuccess := None;
      pending := [];
      noticeDue := [];
      issued := [];
    }

    /** Mounts with the seeded records numbered by the counter itself. */
    constructor Reseeded(now: Timestamp)
      ensures Snapshot() == ReseededState(now) && Valid()
      ensures issued == [Ident(CheckInPrefix, 1), Ident(CheckInPrefix, 2)]
    {
      conversation := InitialState(now).conversation;
      inputValue := "";
      isAgentTyping := false;
      checkInSuccess := None;
      pending := [];
      noticeDue := [];
      idCounter := 0;
      issued := [];
      new;
      var first := NextId(CheckInPrefix);
      var second := NextId(CheckInPrefix);
      var seeds := SeededCheckIns(now);
      checkIns := [seeds[0].(id := first), seeds[1].(id := second)];
    }

    /** `nextId(prefix, idCounter)`: bumps the counter and returns
        `prefix-N`, an id no earlier call returned. */
    method NextId(prefix: string) returns (id: Ident)
      requires Valid()
      modifies this`idCounter, this`issued
      ensures Valid()
      ensures idCounter == old(idCounter) + 1 && id == Ident(prefix, idCounter)
      ensures issued == old(issued) + [id] && id !in old(issued)
    {
      idCounter := idCounter + 1;
      id := Ident(prefix, idCounter);
      issued := issued + [id];
    }

    /** The message box's `onChange`. */
    method SetInputValue(text: string)
      modifies this`inputValue
      ensures Snapshot() == Step(old(Snapshot()), Typed(text))
    {
      inputValue := text;
    }

    method HandleSend(message: Option<string>, now: Timestamp)
      requires Valid()
      modifies this
      ensures Valid() && old(issued) <= issued
      ensures Snapshot() == Step(old(Snapshot()), SendRequested(message, now))
    {
      var trimmed := Trim(if message.Some? then message.value else inputValue);
      if trimmed == [] {
        return;
      }
      var id := NextId(MsgPrefix);
      conversation := conversation + [Message(id, Visitor, trimmed, now, None)];
      inputValue := "";
      isAgentTyping := true;
      var responseDelay := ResponseDelay(trimmed);
      pending := pending + [PendingReply(trimmed, now + responseDelay)];
    }

    /** The reply timer `k` fires at `now`. */
    method DeliverReply(k: nat, now: Timestamp)
      requires Valid() && Enabled(Snapshot(), ReplyTimerFired(k, now))
      modifies this
      ensures Valid() && old(issued) <= issued
      ensures Snapshot() == Step(old(Snapshot()), ReplyTimerFired(k, now))
    {
      var trimmed := pending[k].trimmed;
      var id := NextId(MsgPrefix);
      var reply := Message(id, Agent, Responder.GenerateAgentResponse(trimmed), now, Some(ReplyMeta));
      conversation := conversation + [reply];
      isAgentTyping := false;
      pending := pending[..k] + pending[k + 1..];
    }

    method HandleFormSubmit(form: CheckInForm, now: Timestamp, arrivalLabel: string)
      requires Valid()
      modifies this
      ensures Valid() && old(issued) <= issued
      ensures Snapshot() == Step(old(Snapshot()), FormSubmitted(form, now, arrivalLabel))
    {
      var name := Trim(form.name);
      var dob := Trim(form.dob);
      var phone := Trim(form.phone);
      var reason := Trim(form.reason);
      if name == [] || dob == [] || reason == [] {
        return;
      }
      var id := NextId(CheckInPrefix);
      var record := CheckIn(id, name, dob, reason, Waiting, now, PendingEscort,
                            if phone == [] then None else Some(phone));
      checkIns := [record] + checkIns;
      checkInSuccess := Some(SuccessNotice(name, reason));
      noticeDue := noticeDue + [now + NoticeLifetime];
      var confirmationId := NextId(MsgPrefix);
      conversation := conversation + [Message(confirmationId, System,
                                              ConfirmationText(name, reason, arrivalLabel), now, Some(SyncMeta))];
    }

    /** The oldest notice timer fires at `now`. */
    method ExpireNotice(now: Timestamp)
      requires Enabled(Snapshot(), NoticeTimerFired(now))
      modifies this`checkInSuccess, this`noticeDue
      ensures Snapshot() == Step(old(Snapshot()), NoticeTimerFired(now))
    {
      checkInSuccess := None;
      noticeDue := noticeDue[1..];
    }
  }
}
