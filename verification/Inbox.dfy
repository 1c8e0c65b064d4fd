/** Reading the PEC inbox from a saved cursor: the sessions, what happens to the mailbox meanwhile, and what the cursor
    means over a whole run. Message numbers (UIDs) and their validity follow section 2.3.1.1 of RFC 9051. */
module Inbox {
  import opened Dates
  import opened Wrappers

  /** The 40 MB above which a message is not read. */
  const MAX_MESSAGE_BYTES := 40 * 1024 * 1024

  datatype Message = Message(size: nat, received: Day)

  datatype Mark = Mark(validity: int, uid: int)

  datatype Item = Item(uid: int, size: nat)

  /** A session, from opening the mailbox on. `horizon` is the next UID when the messages to read were chosen: no
      statement of the reader depends on it. */
  datatype Session =
    | Idle
    | Opened(resume: Option<int>, newest: int, since: Option<Day>)
    | Found(newest: int, uids: set<int>, horizon: int)
    | Reading(resume: Option<int>, newest: int, list: seq<Item>, next: nat, horizon: int)

  /** A rescan that came to its end: the newest message when it opened, and how many it had handled. */
  datatype Rescan = Rescan(newest: int, handled: nat)

  /** What happened under the current UIDVALIDITY: every message that was there, the UIDs handled in order, the cursor
      the history starts from, and the rescan completed. */
  datatype History = History(arrived: map<int, Message>, log: seq<int>, base: Option<int>, rescan: Option<Rescan>)

  datatype State = State(validity: int, uidNext: int, messages: map<int, Message>, saved: Option<Mark>,
                         session: Session, past: History)

  datatype Event =
    | Arrive(uid: int, m: Message)
    | Expunge(uid: int)
    | Reset(validity: int, uidNext: int, messages: map<int, Message>)
    | Open(since: Option<Day>)
    | Search
    | List(list: seq<Item>)
    | Take(ok: bool)
    | Finish
    | Abort

  /** The last UID, when the saved UIDVALIDITY is still that of the mailbox. */
  function ResumeOf(s: State): Option<int> {
    if s.saved.Some? && s.saved.value.validity == s.validity then Some(s.saved.value.uid) else None
  }

  predicate Sorted(list: seq<Item>) {
    forall i, j :: 0 <= i < j < |list| ==> list[i].uid < list[j].uid
  }

  /** The list holds the chosen messages with their sizes, in UID order. */
  predicate IsListing(list: seq<Item>, messages: map<int, Message>, uids: set<int>) {
    && Sorted(list)
    && (forall i :: 0 <= i < |list| ==>
        list[i].uid in uids && list[i].uid in messages && list[i].size == messages[list[i].uid].size)
    && (forall uid :: uid in uids && uid in messages ==> exists i :: 0 <= i < |list| && list[i].uid == uid)
  }

  predicate IsLast(messages: map<int, Message>, uid: int) {
    uid in messages && forall other :: other in messages ==> other <= uid
  }

  /** The UID range "from:*": the last message belongs to it even when it is before `from`. */
  function StarRange(messages: map<int, Message>, from: int): set<int> {
    set uid | uid in messages && (uid >= from || IsLast(messages, uid))
  }

  function AfterResume(messages: map<int, Message>, resume: int): set<int> {
    var range := StarRange(messages, resume + 1);
    set uid | uid in range && uid > resume
  }

  function SearchSince(messages: map<int, Message>, since: Day): set<int> {
    set uid | uid in messages && messages[uid].received >= since
  }

  /** Saved after each message, never backwards. */
  function Save(saved: Option<Mark>, mark: Mark): Option<Mark> {
    if saved.None? || saved.value.uid < mark.uid || saved.value.validity != mark.validity then Some(mark) else saved
  }

  /** The last UID to save when the session has nothing more to read. */
  function EndOf(s: Session): Option<int> {
    match s
    case Idle => None
    case Opened(resume, newest, since) =>
      if resume.Some? then (if resume.value < newest then None else resume)
        else if since.Some? then None else Some(newest)
    case Found(newest, uids, _) => if uids == {} then Some(newest) else None
    case Reading(resume, newest, list, next, _) =>
      if next != |list| then None
      else if resume.None? then Some(newest)
      else if list == [] then resume
      else Some(list[|list| - 1].uid)
  }

  predicate IsRescan(s: Session) {
    s.Found? || (s.Opened? && s.resume.None?) || (s.Reading? && s.resume.None?)
  }

  /** The next message of the list: skipped when too large or gone, else handled, which saves its UID; a failure ends
      the session. */
  function TakeNext(s: State, ok: bool): State
    requires s.session.Reading? && s.session.next < |s.session.list|
  {
    var item := s.session.list[s.session.next];
    if item.size > MAX_MESSAGE_BYTES || item.uid !in s.messages
      then s.(session := s.session.(next := s.session.next + 1))
    else if ok then
      s.(session := s.session.(next := s.session.next + 1),
         saved := Save(s.saved, Mark(s.validity, item.uid)),
         past := s.past.(log := s.past.log + [item.uid]))
    else s.(session := Idle)
  }

  function End(s: State): State
    requires EndOf(s.session).Some?
  {
    s.(saved := Some(Mark(s.validity, EndOf(s.session).value)),
       session := Idle,
       past := if IsRescan(s.session) then s.past.(rescan := Some(Rescan(s.session.newest, |s.past.log|))) else s.past)
  }

  predicate MayList(s: State, list: seq<Item>) {
    || (s.session.Opened? && s.session.resume.Some? && s.session.resume.value < s.session.newest
        && IsListing(list, s.messages, AfterResume(s.messages, s.session.resume.value)))
    || (s.session.Found? && s.session.uids != {} && IsListing(list, s.messages, s.session.uids))
  }

  /** One event. What is not possible in a state changes nothing. A new UIDVALIDITY is greater than all before it. */
  function Step(s: State, e: Event): State {
    match e
    case Arrive(uid, m) =>
      if uid < s.uidNext then s
      else s.(uidNext := uid + 1, messages := s.messages[uid := m],
              past := s.past.(arrived := s.past.arrived[uid := m]))
    case Expunge(uid) => s.(messages := s.messages - {uid})
    case Reset(validity, uidNext, messages) =>
      if s.session.Idle? && validity > s.validity && forall uid :: uid in messages ==> uid < uidNext
      then s.(validity := validity, uidNext := uidNext, messages := messages, past := History(messages, [], None, None))
      else s
    case Open(since) => if s.session.Idle? then s.(session := Opened(ResumeOf(s), s.uidNext - 1, since)) else s
    case Search =>
      if s.session.Opened? && s.session.resume.None? && s.session.since.Some?
      then s.(session := Found(s.session.newest, SearchSince(s.messages, s.session.since.value), s.uidNext))
      else s
    case List(list) =>
      if !MayList(s, list) then s
      else if s.session.Opened? then s.(session := Reading(s.session.resume, s.session.newest, list, 0, s.uidNext))
      else s.(session := Reading(None, s.session.newest, list, 0, s.session.horizon))
    case Take(ok) => if s.session.Reading? && s.session.next < |s.session.list| then TakeNext(s, ok) else s
    case Finish => if EndOf(s.session).Some? then End(s) else s
    case Abort => s.(session := Idle)
  }

  function Run(s: State, events: seq<Event>): State {
    if events == [] then s else Step(Run(s, events[..|events| - 1]), events[|events| - 1])
  }

  // ---------- Invariant ----------

  predicate MailboxOk(s: State) {
    && (forall uid :: uid in s.messages ==> uid in s.past.arrived && s.past.arrived[uid] == s.messages[uid])
    && (forall uid :: uid in s.past.arrived ==> uid < s.uidNext)
  }

  predicate CursorOk(s: State) {
    && (s.saved.Some? ==> s.saved.value.validity <= s.validity)
    && (ResumeOf(s).Some? ==> ResumeOf(s).value < s.uidNext)
    && (s.past.base.Some? ==> ResumeOf(s).Some? && s.past.rescan.None?)
    && (s.past.rescan.Some? ==> ResumeOf(s).Some?)
    && (ResumeOf(s).None? ==> s.past.log == [])
  }

  /** Where in the log the part handled after a completed rescan begins. */
  function Split(h: History): nat {
    if h.rescan.Some? then h.rescan.value.handled else 0
  }

  predicate LogOk(s: State) {
    var log, split := s.past.log, Split(s.past);
    && split <= |log|
    && (forall i :: 0 <= i < |log| ==> log[i] in s.past.arrived && s.past.arrived[log[i]].size <= MAX_MESSAGE_BYTES)
    && (forall i, j :: 0 <= i < j < |log| && (j < split || split <= i) ==> log[i] < log[j])
    && (s.past.base.Some? ==> forall i :: 0 <= i < |log| ==> s.past.base.value < log[i])
    && (s.past.rescan.Some? ==> forall i :: split <= i < |log| ==> s.past.rescan.value.newest < log[i])
    && (ResumeOf(s).Some? ==> forall i :: split <= i < |log| ==> log[i] <= ResumeOf(s).value)
    && (ResumeOf(s).Some? && s.past.rescan.Some? ==> s.past.rescan.value.newest <= ResumeOf(s).value)
    && (ResumeOf(s).Some? && s.past.base.Some? ==> s.past.base.value <= ResumeOf(s).value)
  }

  /** The last UID the session has come to. */
  function Reached(s: Session): int
    requires s.Reading? && s.next <= |s.list| && s.resume.Some?
  {
    if s.next == 0 then s.resume.value else s.list[s.next - 1].uid
  }

  predicate SessionOk(s: State) {
    match s.session
    case Idle => true
    case Opened(resume, newest, _) => resume == ResumeOf(s) && newest < s.uidNext
    case Found(newest, uids, horizon) =>
      ResumeOf(s).None? && newest < horizon <= s.uidNext && (forall uid :: uid in uids ==> uid < horizon)
    case Reading(resume, newest, list, next, horizon) =>
      && next <= |list| && Sorted(list) && newest < horizon <= s.uidNext
      && (forall k :: 0 <= k < |list| ==> list[k].uid < horizon && list[k].uid in s.past.arrived
                                          && list[k].size == s.past.arrived[list[k].uid].size)
      && (resume.None? ==> s.past.base.None? && s.past.rescan.None?)
      && (resume.None? && ResumeOf(s).Some? ==> s.past.log != [] && s.past.log[|s.past.log| - 1] == ResumeOf(s).value)
      && (resume.Some? ==>
            resume.value < horizon && ResumeOf(s).Some? && resume.value <= ResumeOf(s).value <= Reached(s.session))
      && (resume.Some? ==> forall k :: 0 <= k < |list| ==> resume.value < list[k].uid)
      && (ResumeOf(s).Some? ==>
            ResumeOf(s).value < horizon && forall k :: next <= k < |list| ==> ResumeOf(s).value < list[k].uid)
  }

  /** A message the reader owes: still there, not too large, after the cursor the history starts from or, without one,
      received on `since` or later. */
  predicate Due(s: State, since: Day, uid: int) {
    && uid in s.messages && s.messages[uid].size <= MAX_MESSAGE_BYTES
    && (if s.past.base.Some? then s.past.base.value < uid else s.messages[uid].received >= since)
  }

  predicate Waiting(s: Session, uid: int)
    requires s.Reading?
  {
    exists k :: s.next <= k < |s.list| && s.list[k].uid == uid
  }

  /** Every message due up to the cursor is in the log, and in a session every other one it chose is still to come. */
  ghost predicate Covered(s: State, since: Day) {
    && (ResumeOf(s).Some? ==> forall uid :: Due(s, since, uid) && uid <= ResumeOf(s).value ==> uid in s.past.log)
    && (s.session.Opened? && s.session.resume.None? ==> s.session.since.Some? && s.session.since.value <= since)
    && (s.session.Found? ==> forall uid :: Due(s, since, uid) && uid < s.session.horizon ==> uid in s.session.uids)
    && (s.session.Reading? ==>
          forall uid :: Due(s, since, uid) && uid < s.session.horizon ==> uid in s.past.log || Waiting(s.session, uid))
  }

  ghost predicate Inv(s: State) {
    MailboxOk(s) && CursorOk(s) && LogOk(s) && SessionOk(s)
  }

  lemma StepKeepsInv(s: State, e: Event)
    requires Inv(s)
    ensures Inv(Step(s, e))
  {
    match e
    case Arrive(uid, m) => ArriveKeepsInv(s, uid, m);
    case Reset(validity, uidNext, messages) => ResetKeepsInv(s, validity, uidNext, messages);
    case Open(since) => OpenKeepsInv(s, since);
    case List(list) => ListKeepsInv(s, list);
    case Take(ok) =>
      hide Inv;
      if s.session.Reading? && s.session.next < |s.session.list| {
        TakeKeepsInv(s, ok);
      }
    case Finish =>
      hide Inv;
      if EndOf(s.session).Some? {
        EndKeepsInv(s);
      }
    case _ => QuietStepKeepsInv(s, e);
  }

  lemma ArriveKeepsInv(s: State, uid: int, m: Message)
    requires Inv(s)
    ensures Inv(Step(s, Arrive(uid, m)))
  {
    ArriveKeepsLog(s, uid, m);
    ArriveKeepsSession(s, uid, m);
    hide LogOk;
    hide SessionOk;
  }

  lemma ArriveKeepsLog(s: State, uid: int, m: Message)
    requires MailboxOk(s) && LogOk(s)
    ensures LogOk(Step(s, Arrive(uid, m)))
  {
  }

  lemma ArriveKeepsSession(s: State, uid: int, m: Message)
    requires MailboxOk(s) && SessionOk(s)
    ensures SessionOk(Step(s, Arrive(uid, m)))
  {
    hide Sorted;
  }

  lemma QuietStepKeepsInv(s: State, e: Event)
    requires Inv(s) && (e.Expunge? || e.Search? || e.Abort?)
    ensures Inv(Step(s, e))
  {
  }

  lemma ResetKeepsInv(s: State, validity: int, uidNext: int, messages: map<int, Message>)
    requires Inv(s)
    ensures Inv(Step(s, Reset(validity, uidNext, messages)))
  {
  }

  lemma OpenKeepsInv(s: State, since: Option<Day>)
    requires Inv(s)
    ensures Inv(Step(s, Open(since)))
  {
  }

  lemma ListKeepsInv(s: State, list: seq<Item>)
    requires Inv(s)
    ensures Inv(Step(s, List(list)))
  {
    ListKeepsSession(s, list);
    hide SessionOk;
    hide MayList;
  }

  lemma ListKeepsSession(s: State, list: seq<Item>)
    requires Inv(s)
    ensures SessionOk(Step(s, List(list)))
  {
    hide LogOk;
  }

  lemma TakeKeepsInv(s: State, ok: bool)
    requires Inv(s) && s.session.Reading? && s.session.next < |s.session.list|
    ensures Inv(TakeNext(s, ok))
  {
    TakeKeepsCursor(s, ok);
    TakeKeepsLog(s, ok);
    TakeKeepsSession(s, ok);
    hide MailboxOk;
    hide CursorOk;
    hide LogOk;
    hide SessionOk;
    hide TakeNext;
  }

  lemma TakeKeepsCursor(s: State, ok: bool)
    requires Inv(s) && s.session.Reading? && s.session.next < |s.session.list|
    ensures MailboxOk(TakeNext(s, ok)) && CursorOk(TakeNext(s, ok))
  {
    hide LogOk;
    hide Sorted;
  }

  lemma TakeKeepsLog(s: State, ok: bool)
    requires Inv(s) && s.session.Reading? && s.session.next < |s.session.list|
    ensures LogOk(TakeNext(s, ok))
  {
    hide Sorted;
  }

  lemma TakeKeepsSession(s: State, ok: bool)
    requires Inv(s) && s.session.Reading? && s.session.next < |s.session.list|
    ensures SessionOk(TakeNext(s, ok))
  {
    hide MailboxOk;
    hide LogOk;
  }

  lemma EndKeepsInv(s: State)
    requires Inv(s) && EndOf(s.session).Some?
    ensures Inv(End(s))
  {
  }

  /** Opening without a usable cursor searches at least from `since`. */
  predicate Reaches(s: State, e: Event, since: Day) {
    e.Open? && s.session.Idle? && ResumeOf(s).None? ==> e.since.Some? && e.since.value <= since
  }

  lemma StepKeepsCovered(s: State, e: Event, since: Day)
    requires Inv(s) && Covered(s, since) && Reaches(s, e, since)
    ensures Covered(Step(s, e), since)
  {
    match e
    case Arrive(uid, m) =>
    case Expunge(uid) =>
    case Reset(validity, uidNext, messages) =>
    case Open(_) =>
    case Search =>
    case List(list) => ListKeepsCovered(s, list, since);
    case Take(ok) => if s.session.Reading? && s.session.next < |s.session.list| { TakeKeepsCovered(s, ok, since); }
    case Finish => if EndOf(s.session).Some? { EndKeepsCovered(s, since); }
    case Abort =>
  }

  lemma ListKeepsCovered(s: State, list: seq<Item>, since: Day)
    requires Inv(s) && Covered(s, since)
    ensures Covered(Step(s, List(list)), since)
  {
  }

  lemma TakeKeepsCovered(s: State, ok: bool, since: Day)
    requires Inv(s) && Covered(s, since) && s.session.Reading? && s.session.next < |s.session.list|
    ensures Covered(TakeNext(s, ok), since)
  {
  }

  lemma EndKeepsCovered(s: State, since: Day)
    requires Inv(s) && Covered(s, since) && EndOf(s.session).Some?
    ensures Covered(End(s), since)
  {
    var after := End(s);
    forall uid | Due(after, since, uid) && uid <= EndOf(s.session).value
      ensures uid in after.past.log
    {
      assert Due(s, since, uid);
    }
  }

  // ---------- Runs ----------

  /** Where a history starts: no session, and nothing handled yet under the UIDVALIDITY of the mailbox. */
  predicate Start(s: State) {
    && s.session.Idle? && s.past == History(s.messages, [], ResumeOf(s), None)
    && (forall uid :: uid in s.messages ==> uid < s.uidNext)
    && (s.saved.Some? ==> s.saved.value.validity <= s.validity)
    && (ResumeOf(s).Some? ==> ResumeOf(s).value < s.uidNext)
  }

  predicate RunReaches(s: State, events: seq<Event>, since: Day) {
    forall i :: 0 <= i < |events| ==> Reaches(Run(s, events[..i]), events[i], since)
  }

  lemma {:induction false} RunKeepsInv(s: State, events: seq<Event>)
    requires Start(s)
    ensures Inv(Run(s, events))
  {
    if events == [] {
    } else {
      hide Step;
      RunKeepsInv(s, events[..|events| - 1]);
      StepKeepsInv(Run(s, events[..|events| - 1]), events[|events| - 1]);
    }
  }

  lemma {:induction false} RunKeepsCovered(s: State, events: seq<Event>, since: Day)
    requires Start(s) && RunReaches(s, events, since)
    ensures Covered(Run(s, events), since)
  {
    if events == [] {
    } else {
      hide Step;
      hide Inv;
      hide Covered;
      hide Reaches;
      var before := events[..|events| - 1];
      assert forall i :: 0 <= i < |before| ==> before[..i] == events[..i] && before[i] == events[i];
      RunKeepsCovered(s, before, since);
      RunKeepsInv(s, before);
      StepKeepsCovered(Run(s, before), events[|events| - 1], since);
    }
  }

  predicate Increasing(log: seq<int>) {
    forall i, j :: 0 <= i < j < |log| ==> log[i] < log[j]
  }

  lemma {:induction false} IncreasingCounts(log: seq<int>, uid: int)
    requires Increasing(log)
    ensures multiset(log)[uid] == if uid in log then 1 else 0
  {
    if log != [] {
      var before, last := log[..|log| - 1], log[|log| - 1];
      assert log == before + [last];
      IncreasingCounts(before, uid);
      assert last !in before;
    }
  }

  /** How many times a message has been handled. */
  ghost function TimesHandled(s: State, uid: int): nat {
    multiset(s.past.log)[uid]
  }

  lemma CountsByPart(s: State, uid: int)
    requires Inv(s)
    ensures Split(s.past) <= |s.past.log|
    ensures TimesHandled(s, uid)
         == (if uid in s.past.log[..Split(s.past)] then 1 else 0)
           + (if uid in s.past.log[Split(s.past)..] then 1 else 0)
  {
    assert LogOk(s);
    hide Inv;
    var log, split := s.past.log, Split(s.past);
    assert log == log[..split] + log[split..];
    assert Increasing(log[..split]) && Increasing(log[split..]);
    hide LogOk;
    hide Increasing;
    IncreasingCounts(log[..split], uid);
    IncreasingCounts(log[split..], uid);
  }

  lemma HandledAtMostTwice(s: State, uid: int)
    requires Inv(s)
    ensures TimesHandled(s, uid) <= 2
    ensures s.past.rescan.None? || uid <= s.past.rescan.value.newest ==> TimesHandled(s, uid) <= 1
    ensures TimesHandled(s, uid) >= 1 <==> uid in s.past.log
  {
    CountsByPart(s, uid);
    InParts(s.past.log, Split(s.past), uid);
    if s.past.rescan.None? || uid <= s.past.rescan.value.newest {
      NotHandledTwice(s, uid);
    }
    hide *;
  }

  lemma InParts(log: seq<int>, split: nat, uid: int)
    requires split <= |log|
    ensures uid in log <==> uid in log[..split] || uid in log[split..]
  {
    assert log == log[..split] + log[split..];
  }

  lemma NotHandledTwice(s: State, uid: int)
    requires LogOk(s) && (s.past.rescan.None? || uid <= s.past.rescan.value.newest)
    ensures uid !in s.past.log[..Split(s.past)] || uid !in s.past.log[Split(s.past)..]
  {
  }

  // ---------- What a rescan handles twice ----------

  /** The completed rescan handled the message, which is newer than those there when it opened. */
  predicate TakenEarly(h: History, uid: int) {
    h.rescan.Some? && h.rescan.value.newest < uid && h.rescan.value.handled <= |h.log|
      && uid in h.log[..h.rescan.value.handled]
  }

  predicate HandledSince(h: History, uid: int) {
    h.rescan.Some? && h.rescan.value.handled <= |h.log| && uid in h.log[h.rescan.value.handled..]
  }

  /** A message after the newest of the completed rescan, still there and not too large. */
  predicate Later(s: State, uid: int) {
    s.past.rescan.Some? && s.past.rescan.value.newest < uid && uid in s.messages
      && s.messages[uid].size <= MAX_MESSAGE_BYTES
  }

  /** Since the rescan, every later message up to the cursor has been handled, again or for the first time. */
  ghost predicate ReadSince(s: State) {
    && (s.past.rescan.Some? && ResumeOf(s).Some? ==> forall uid :: Later(s, uid) && uid <= ResumeOf(s).value ==>
        HandledSince(s.past, uid))
    && (s.session.Reading? ==>
          forall uid :: Later(s, uid) && uid < s.session.horizon ==>
            HandledSince(s.past, uid) || Waiting(s.session, uid))
  }

  lemma StepKeepsReadSince(s: State, e: Event)
    requires Inv(s) && ReadSince(s)
    ensures ReadSince(Step(s, e))
  {
    match e
    case List(list) => ListKeepsReadSince(s, list);
    case Take(ok) => if s.session.Reading? && s.session.next < |s.session.list| { TakeKeepsReadSince(s, ok); }
    case Finish => if EndOf(s.session).Some? { EndKeepsReadSince(s); }
    case Arrive(uid, m) => ArriveKeepsReadSince(s, uid, m);
    case Expunge(uid) =>
    case Reset(_, _, _) =>
    case Open(_) =>
    case Search =>
    case Abort =>
  }

  lemma ArriveKeepsReadSince(s: State, uid: int, m: Message)
    requires Inv(s) && ReadSince(s)
    ensures ReadSince(Step(s, Arrive(uid, m)))
  {
    var after := Step(s, Arrive(uid, m));
    forall other | Later(after, other) && other < s.uidNext
      ensures Later(s, other)
      ensures HandledSince(after.past, other) <==> HandledSince(s.past, other)
    {
    }
    hide Later;
    hide HandledSince;
  }

  lemma ListKeepsReadSince(s: State, list: seq<Item>)
    requires Inv(s) && ReadSince(s)
    ensures ReadSince(Step(s, List(list)))
  {
  }

  lemma TakeKeepsReadSince(s: State, ok: bool)
    requires Inv(s) && ReadSince(s) && s.session.Reading? && s.session.next < |s.session.list|
    ensures ReadSince(TakeNext(s, ok))
  {
    var after := TakeNext(s, ok);
    var item := s.session.list[s.session.next];
    if s.past.rescan.Some? {
      LogGrows(s.past, item.uid);
    }
    forall uid | Later(after, uid) && uid < s.session.horizon
      ensures HandledSince(s.past, uid) ==> HandledSince(after.past, uid)
      ensures Waiting(s.session, uid) && after.session.Reading? ==>
              HandledSince(after.past, uid) || Waiting(after.session, uid)
    {
      TakeMovesOn(s, ok, uid);
    }
    hide HandledSince;
    hide Waiting;
  }

  lemma LogGrows(h: History, x: int)
    requires h.rescan.Some? && h.rescan.value.handled <= |h.log|
    ensures forall uid :: HandledSince(h, uid) ==> HandledSince(h.(log := h.log + [x]), uid)
    ensures HandledSince(h.(log := h.log + [x]), x)
  {
    var k := h.rescan.value.handled;
    assert (h.log + [x])[k..] == h.log[k..] + [x];
  }

  lemma TakeMovesOn(s: State, ok: bool, uid: int)
    requires Inv(s) && s.session.Reading? && s.session.next < |s.session.list| && Later(s, uid)
    ensures var after := TakeNext(s, ok);
            && (HandledSince(s.past, uid) ==> HandledSince(after.past, uid))
            && (Waiting(s.session, uid) && after.session.Reading? ==>
                HandledSince(after.past, uid) || Waiting(after.session, uid))
  {
    var item := s.session.list[s.session.next];
    LogGrows(s.past, item.uid);
    if Waiting(s.session, uid) {
      var k :| s.session.next <= k < |s.session.list| && s.session.list[k].uid == uid;
    }
    hide HandledSince;
  }

  lemma EndKeepsReadSince(s: State)
    requires Inv(s) && ReadSince(s) && EndOf(s.session).Some?
    ensures ReadSince(End(s))
  {
    var after := End(s);
    forall uid | Later(after, uid) && uid <= EndOf(s.session).value
      ensures HandledSince(after.past, uid)
    {
      assert !IsRescan(s.session) ==> Later(s, uid);
    }
  }

  lemma {:induction false} RunKeepsReadSince(s: State, events: seq<Event>)
    requires Start(s)
    ensures ReadSince(Run(s, events))
  {
    if events == [] {
    } else {
      hide Step;
      hide Inv;
      hide ReadSince;
      RunKeepsInv(s, events[..|events| - 1]);
      RunKeepsReadSince(s, events[..|events| - 1]);
      StepKeepsReadSince(Run(s, events[..|events| - 1]), events[|events| - 1]);
    }
  }

  /** Over any run, a message still there, not too large and up to the cursor has been handled twice if and only if the
      completed rescan handled it although it arrived after that rescan opened. */
  lemma HandledTwiceIff(s0: State, events: seq<Event>, uid: int)
    requires Start(s0)
    requires var s := Run(s0, events);
             uid in s.messages && s.messages[uid].size <= MAX_MESSAGE_BYTES && ResumeOf(s).Some?
               && uid <= ResumeOf(s).value
    ensures TimesHandled(Run(s0, events), uid) == 2 <==> TakenEarly(Run(s0, events).past, uid)
  {
    RunKeepsInv(s0, events);
    RunKeepsReadSince(s0, events);
    var s := Run(s0, events);
    hide Run;
    CountsByPart(s, uid);
    HandledAtMostTwice(s, uid);
    hide TimesHandled;
    if TakenEarly(s.past, uid) {
      assert Later(s, uid);
    }
  }

  /** Whatever the rescan took early is handled again by the next session that ends normally. */
  lemma NextSessionRepeats(s: State, uid: int)
    requires Inv(s) && ReadSince(s) && EndOf(s.session).Some? && !IsRescan(s.session)
    requires Later(s, uid) && TakenEarly(s.past, uid) && uid <= s.session.newest
    ensures TimesHandled(End(s), uid) == 2
  {
    EndKeepsReadSince(s);
    EndKeepsInv(s);
    var after := End(s);
    assert Later(after, uid) && uid < s.uidNext;
    LaterIsHandled(s, uid);
    assert TakenEarly(after.past, uid) && HandledSince(after.past, uid);
    CountsByPart(after, uid);
  }

  lemma LaterIsHandled(s: State, uid: int)
    requires Inv(s) && ReadSince(s) && EndOf(s.session).Some? && !IsRescan(s.session) && Later(s, uid)
             && uid <= s.session.newest
    ensures HandledSince(s.past, uid)
  {
  }

  // ---------- What every run promises ----------

  /** Over any run of sessions, arrivals, expunges, failures and new UIDVALIDITY values in which every session without a
      usable cursor searches from `since` or before: each message due, up to the cursor, has been handled, once unless
      the completed rescan took it early, and then twice; and nothing too large ever is. */
  lemma NothingIsLost(s0: State, events: seq<Event>, since: Day, uid: int)
    requires Start(s0) && RunReaches(s0, events, since)
    ensures var s := Run(s0, events);
            && (Due(s, since, uid) && ResumeOf(s).Some? && uid <= ResumeOf(s).value ==>
                  TimesHandled(s, uid) == if TakenEarly(s.past, uid) then 2 else 1)
            && TimesHandled(s, uid) <= 2
            && (TimesHandled(s, uid) == 2 ==> s.past.rescan.Some? && s.past.rescan.value.newest < uid)
            && (uid in s.past.log ==> uid in s.past.arrived && s.past.arrived[uid].size <= MAX_MESSAGE_BYTES)
  {
    RunKeepsInv(s0, events);
    RunKeepsCovered(s0, events, since);
    var s := Run(s0, events);
    HandledAtMostTwice(s, uid);
    if Due(s, since, uid) && ResumeOf(s).Some? && uid <= ResumeOf(s).value {
      HandledTwiceIff(s0, events, uid);
    }
    hide Run;
    hide TimesHandled;
    hide TakenEarly;
  }

  predicate SameValidity(events: seq<Event>) {
    forall i :: 0 <= i < |events| ==> !events[i].Reset?
  }

  lemma {:induction false} CursorStays(s: State, events: seq<Event>)
    requires Start(s) && ResumeOf(s).Some? && SameValidity(events)
    ensures Run(s, events).past.base == ResumeOf(s)
  {
    if events != [] {
      CursorStays(s, events[..|events| - 1]);
    }
  }

  lemma ResumedReaches(s: State, events: seq<Event>, since: Day)
    requires Start(s) && ResumeOf(s).Some? && SameValidity(events)
    ensures RunReaches(s, events, since)
  {
    forall i | 0 <= i < |events|
      ensures Reaches(Run(s, events[..i]), events[i], since)
    {
      CursorStays(s, events[..i]);
      RunKeepsInv(s, events[..i]);
    }
  }

  /** Starting from a cursor, over any run of sessions under one UIDVALIDITY: messages are handled in UID order, and
      each one still there, not too large and up to the new cursor has been handled exactly once. */
  lemma ResumedRunHandlesOnce(s0: State, events: seq<Event>, uid: int)
    requires Start(s0) && ResumeOf(s0).Some? && SameValidity(events)
    ensures var s := Run(s0, events);
            && ResumeOf(s).Some? && ResumeOf(s0).value <= ResumeOf(s).value
            && Increasing(s.past.log)
            && (uid in s.past.log ==> ResumeOf(s0).value < uid <= ResumeOf(s).value)
            && (uid in s.messages && s.messages[uid].size <= MAX_MESSAGE_BYTES
                && ResumeOf(s0).value < uid <= ResumeOf(s).value ==>
                  TimesHandled(s, uid) == 1)
  {
    CursorStays(s0, events);
    ResumedReaches(s0, events, 0);
    NothingIsLost(s0, events, 0, uid);
    RunKeepsInv(s0, events);
    hide Run;
    hide TimesHandled;
  }

  /** A session that ends normally has handled every message due that was there when it opened and is still there. */
  lemma EndedSessionHasReadAll(s: State, since: Day, uid: int)
    requires Inv(s) && Covered(s, since) && EndOf(s.session).Some?
    requires Due(s, since, uid) && uid <= s.session.newest
    ensures uid in End(s).past.log
  {
  }

  /** The cursor goes back exactly when a rescan ends that handled a message newer than those there when it opened. */
  lemma CursorGoesBackIff(s: State)
    requires Inv(s) && EndOf(s.session).Some?
    ensures (ResumeOf(s).Some? && ResumeOf(End(s)).value < ResumeOf(s).value
             <==> IsRescan(s.session) && exists i :: 0 <= i < |s.past.log| && s.session.newest < s.past.log[i])
  {
    if IsRescan(s.session) && exists i :: 0 <= i < |s.past.log| && s.session.newest < s.past.log[i] {
      var i :| 0 <= i < |s.past.log| && s.session.newest < s.past.log[i];
      assert s.past.log[i] <= ResumeOf(s).value;
    }
  }

  lemma RunOne(s: State, events: seq<Event>, e: Event)
    ensures Run(s, events + [e]) == Step(Run(s, events), e)
  {
    assert (events + [e])[..|events + [e]| - 1] == events;
  }

  const EMPTY_INBOX := State(1, 1, map[], None, Idle, History(map[], [], None, None))
  const LATE := Message(0, 0)
  const RESCAN := [Open(Some(0)), Arrive(1, LATE), Search, List([Item(1, 0)]), Take(true), Finish]
  const NEXT_SESSION := [Open(Some(0)), List([Item(1, 0)]), Take(true)]

  /** So a message can be handled twice: here one that arrives between the opening of a rescan and its search. */
  lemma RescanCanRepeat()
    ensures Start(EMPTY_INBOX) && RunReaches(EMPTY_INBOX, RESCAN + NEXT_SESSION, 0)
    ensures TimesHandled(Run(EMPTY_INBOX, RESCAN + NEXT_SESSION), 1) == 2
  {
    RescanEnd();
    var all := RESCAN + NEXT_SESSION;
    var s6 := Run(EMPTY_INBOX, RESCAN);
    var s7, s8 := Step(s6, NEXT_SESSION[0]), Step(Step(s6, NEXT_SESSION[0]), NEXT_SESSION[1]);
    assert AfterResume(s7.messages, 0) == {1};
    OneListed(s7.messages);
    assert s8.session == Reading(Some(0), 1, [Item(1, 0)], 0, 2);
    RunOne(EMPTY_INBOX, RESCAN, NEXT_SESSION[0]);
    RunOne(EMPTY_INBOX, RESCAN + NEXT_SESSION[..1], NEXT_SESSION[1]);
    RunOne(EMPTY_INBOX, RESCAN + NEXT_SESSION[..2], NEXT_SESSION[2]);
    assert RESCAN + NEXT_SESSION[..1] == RESCAN + [NEXT_SESSION[0]];
    assert RESCAN + NEXT_SESSION[..2] == RESCAN + NEXT_SESSION[..1] + [NEXT_SESSION[1]];
    assert all == RESCAN + NEXT_SESSION[..2] + [NEXT_SESSION[2]];
    assert Run(EMPTY_INBOX, all).past.log == [1, 1];
  }

  lemma OneListed(messages: map<int, Message>)
    requires messages == map[1 := LATE]
    ensures IsListing([Item(1, 0)], messages, {1})
  {
    assert [Item(1, 0)][0].uid == 1;
  }

  lemma RescanEnd()
    ensures var s := Run(EMPTY_INBOX, RESCAN);
            s == State(1, 2, map[1 := LATE], Some(Mark(1, 0)), Idle,
                       History(map[1 := LATE], [1], None, Some(Rescan(0, 1))))
  {
    RescanSteps();
    var s2 := State(1, 2, map[1 := LATE], None, Opened(None, 0, Some(0)), History(map[1 := LATE], [], None, None));
    assert SearchSince(s2.messages, 0) == {1};
    OneListed(s2.messages);
    assert Step(Step(EMPTY_INBOX, RESCAN[0]), RESCAN[1]) == s2;
    assert Step(Step(s2, RESCAN[2]), RESCAN[3]).session == Reading(None, 0, [Item(1, 0)], 0, 2);
    hide Run;
    hide IsListing;
  }

  lemma RescanSteps()
    ensures Run(EMPTY_INBOX, RESCAN)
         == Step(Step(Step(Step(Step(Step(EMPTY_INBOX, RESCAN[0]), RESCAN[1]), RESCAN[2]), RESCAN[3]), RESCAN[4]),
                 RESCAN[5])
  {
    hide Step;
    RunOne(EMPTY_INBOX, [], RESCAN[0]);
    RunOne(EMPTY_INBOX, RESCAN[..1], RESCAN[1]);
    RunOne(EMPTY_INBOX, RESCAN[..2], RESCAN[2]);
    RunOne(EMPTY_INBOX, RESCAN[..3], RESCAN[3]);
    RunOne(EMPTY_INBOX, RESCAN[..4], RESCAN[4]);
    RunOne(EMPTY_INBOX, RESCAN[..5], RESCAN[5]);
    assert forall i :: 0 <= i < 6 ==> RESCAN[..i + 1] == RESCAN[..i] + [RESCAN[i]];
    assert RESCAN[..6] == RESCAN && Run(EMPTY_INBOX, []) == EMPTY_INBOX;
  }
}
