/** The reader itself, in steps, with a mailbox that changes at every wait and a handler that may fail. */
module InboxReader {
  import opened Dates
  import opened Inbox
  import opened Wrappers

  lemma {:induction false} RunAppend(s: State, a: seq<Event>, b: seq<Event>)
    ensures Run(s, a + b) == Run(Run(s, a), b)
  {
    hide Step;
    if b == [] {
      assert a + b == a;
    } else {
      assert (a + b)[..|a + b| - 1] == a + b[..|b| - 1];
      RunAppend(s, a, b[..|b| - 1]);
    }
  }

  lemma NothingRun(s: State)
    ensures Run(s, []) == s
  {
  }

  lemma RunFirst(s: State, e: Event)
    ensures Run(s, [e]) == Step(s, e)
  {
    RunOne(s, [], e);
  }

  /** What others do to the mailbox while a session waits. */
  predicate IsOthers(events: seq<Event>) {
    forall i :: 0 <= i < |events| ==> events[i].Arrive? || events[i].Expunge?
  }

  /** Events of a session after its opening. */
  predicate IsWithin(events: seq<Event>) {
    forall i :: 0 <= i < |events| ==> !events[i].Open? && !events[i].Reset? && !events[i].Finish?
  }

  class PecInbox {
    var validity: int
    var uidNext: int
    var messages: map<int, Message>
    var saved: Option<Mark>
    ghost var session: Session
    ghost var past: History

    ghost function Contents(): State
      reads this
    {
      State(validity, uidNext, messages, saved, session, past)
    }

    /** A wait: messages arrive and go. */
    method Wait() returns (ghost events: seq<Event>)
      modifies this
      ensures IsOthers(events) && Contents() == Run(old(Contents()), events)
      ensures session == old(session) && saved == old(saved) && validity == old(validity)
    {
      events := [];
      var turns: nat := *;
      while turns > 0
        invariant IsOthers(events) && Contents() == Run(old(Contents()), events)
        invariant session == old(session) && saved == old(saved) && validity == old(validity)
      {
        var uid: int, m: Message, arrives: bool := *, *, *;
        RunOne(old(Contents()), events, if arrives then Arrive(uid, m) else Expunge(uid));
        events := events + [if arrives then Arrive(uid, m) else Expunge(uid)];
        if !arrives {
          messages := messages - {uid};
        } else if uid >= uidNext {
          uidNext, messages, past := uid + 1, messages[uid := m], past.(arrived := past.arrived[uid := m]);
        }
        turns := turns - 1;
      }
    }

    /** Sizes of the chosen messages, in UID order. */
    method Sizes(uids: set<int>) returns (list: seq<Item>)
      ensures IsListing(list, messages, uids)
    {
      list := [];
      var rest := set uid | uid in uids && uid in messages;
      while exists uid :: uid in rest
        invariant rest <= uids && (forall uid :: uid in rest ==> uid in messages)
        invariant Sorted(list) && forall i, uid :: 0 <= i < |list| && uid in rest ==> list[i].uid < uid
        invariant forall i :: 0 <= i < |list| ==>
                    list[i].uid in uids && list[i].uid in messages && list[i].size == messages[list[i].uid].size
        invariant forall uid :: uid in uids && uid in messages && uid !in rest ==>
                  exists i :: 0 <= i < |list| && list[i].uid == uid
        decreases |rest|
      {
        var uid := Least(rest);
        ghost var before := list;
        list, rest := list + [Item(uid, messages[uid].size)], rest - {uid};
        assert list[|before|].uid == uid;
        assert forall i :: 0 <= i < |before| ==> list[i] == before[i];
      }
    }

    static method Least(uids: set<int>) returns (least: int)
      requires exists uid :: uid in uids
      ensures least in uids && forall uid :: uid in uids ==> least <= uid
    {
      least :| least in uids;
      var rest := uids;
      while exists uid :: uid in rest
        invariant rest <= uids && least in uids && forall uid :: uid in uids && uid !in rest ==> least <= uid
        decreases |rest|
      {
        var uid :| uid in rest;
        if uid < least {
          least := uid;
        }
        rest := rest - {uid};
      }
    }

    /** The handler: applies the receipt and saves the UID, or fails. */
    method Handle(uid: int) returns (ok: bool)
      modifies this
      ensures saved == if ok then Save(old(saved), Mark(validity, uid)) else old(saved)
      ensures past == if ok then old(past).(log := old(past).log + [uid]) else old(past)
      ensures validity == old(validity) && uidNext == old(uidNext) && messages == old(messages)
              && session == old(session)
    {
      ok := *;
      if ok {
        past := past.(log := past.log + [uid]);
        if saved.None? || saved.value.uid < uid || saved.value.validity != validity {
          saved := Some(Mark(validity, uid));
        }
      }
    }

    /** Opens the inbox and compares its UIDVALIDITY with the saved one. */
    method OpenInbox(since: Option<Day>) returns (resume: Option<int>, newest: int)
      requires session.Idle?
      modifies this
      ensures Contents() == Step(old(Contents()), Open(since)) && session == Opened(resume, newest, since)
      ensures validity == old(validity)
    {
      newest := uidNext - 1;
      resume := if saved.Some? && saved.value.validity == validity then Some(saved.value.uid) else None;
      session := Opened(resume, newest, since);
    }

    /** What the session is to read: the messages after the cursor, or those found from `since`; none when there is no
        reason to look. */
    method Choose(resume: Option<int>, newest: int, since: Option<Day>)
      returns (list: Option<seq<Item>>, ghost events: seq<Event>)
      requires session == Opened(resume, newest, since)
      modifies this
      ensures Contents() == Run(old(Contents()), events) && IsWithin(events) && validity == old(validity)
      ensures list.None? ==> EndOf(session) == Some(resume.GetOr(newest))
      ensures list.Some? ==> session.Reading? && session.next == 0 && session.list == list.value
                             && session.resume == resume && session.newest == newest
    {
      hide Run;
      hide Step;
      hide IsListing;
      events := Wait();
      if (resume.Some? && resume.value >= newest) || (resume.None? && since.None?) {
        return None, events;
      }
      var uids: set<int> := {};
      ghost var more;
      if resume.None? {
        uids, more := Find(newest, since.value);
        RunAppend(old(Contents()), events, more);
        events := events + more;
        if uids == {} {
          return None, events;
        }
      } else {
        uids := AfterResume(messages, resume.value);
      }
      hide AfterResume;
      var sizes, e := ListSizes(uids);
      RunOne(old(Contents()), events, e);
      events := events + [e];
      list := Some(sizes);
    }

    /** Searches the messages received from a day on; others come and go before their sizes are read. */
    method Find(newest: int, since: Day) returns (uids: set<int>, ghost events: seq<Event>)
      requires session == Opened(None, newest, Some(since))
      modifies this
      ensures Contents() == Run(old(Contents()), events) && IsWithin(events) && validity == old(validity)
      ensures session.Found? && session.newest == newest && session.uids == uids
    {
      uids := SearchSince(messages, since);
      session := Found(newest, uids, uidNext);
      assert Contents() == Step(old(Contents()), Search);
      RunFirst(old(Contents()), Search);
      hide Run;
      hide Step;
      ghost var more := Wait();
      RunAppend(old(Contents()), [Search], more);
      events := [Search] + more;
    }

    /** Reads the sizes of the chosen messages. */
    method ListSizes(uids: set<int>) returns (list: seq<Item>, ghost e: Event)
      requires (session.Opened? && session.resume.Some? && session.resume.value < session.newest
                && uids == AfterResume(messages, session.resume.value))
            || (session.Found? && uids == session.uids && uids != {})
      modifies this
      ensures Contents() == Step(old(Contents()), e) && e == List(list) && validity == old(validity)
      ensures session.Reading? && session.next == 0 && session.list == list && session.newest == old(session).newest
      ensures session.resume == if old(session).Opened? then old(session).resume else None
    {
      hide IsListing;
      hide AfterResume;
      list := Sizes(uids);
      e := List(list);
      assert MayList(Contents(), list);
      session := if session.Opened? then Reading(session.resume, session.newest, list, 0, uidNext)
                 else Reading(None, session.newest, list, 0, session.horizon);
    }

    /** One message at a time; large ones, and those gone meanwhile, are skipped. */
    method ReadAll(list: seq<Item>) returns (done: bool, ghost events: seq<Event>)
      requires session.Reading? && session.list == list && session.next == 0
      modifies this
      ensures Contents() == Run(old(Contents()), events) && IsWithin(events) && validity == old(validity)
      ensures if done then session == old(session).(next := |list|) else session.Idle?
    {
      hide Run;
      hide Step;
      events := [];
      NothingRun(Contents());
      for i := 0 to |list|
        invariant Contents() == Run(old(Contents()), events) && IsWithin(events) && validity == old(validity)
        invariant session == old(session).(next := i)
      {
        ghost var more := Wait();
        RunAppend(old(Contents()), events, more);
        events := events + more;
        var ok := ReadOne(list[i], i);
        RunOne(old(Contents()), events, Take(ok));
        events := events + [Take(ok)];
        if !ok {
          return false, events;
        }
      }
      done := true;
    }

    method ReadOne(item: Item, ghost i: nat) returns (ok: bool)
      requires session.Reading? && session.next == i < |session.list| && item == session.list[i]
      modifies this
      ensures Contents() == Step(old(Contents()), Take(ok)) && validity == old(validity)
      ensures session == if ok then old(session).(next := i + 1) else Idle
    {
      ok := true;
      if item.size <= MAX_MESSAGE_BYTES && item.uid in messages {
        ok := Handle(item.uid);
      }
      session := if ok then session.(next := i + 1) else Idle;
    }

    /** Saves where the session ends. */
    method SaveEnd(lastUid: int)
      requires EndOf(session) == Some(lastUid)
      modifies this
      ensures Contents() == Step(old(Contents()), Finish) && session.Idle?
    {
      past := if IsRescan(session) then past.(rescan := Some(Rescan(session.newest, |past.log|))) else past;
      saved, session := Some(Mark(validity, lastUid)), Idle;
    }

    /** Reads the inbox from the saved cursor. Whatever happens meanwhile, the session is a run of the machine that
        starts by opening and, when it ends normally, ends by saving the cursor. */
    method ReadInbox(since: Option<Day>) returns (done: bool, ghost events: seq<Event>)
      requires session.Idle?
      modifies this
      ensures session.Idle? && Contents() == Run(old(Contents()), events)
      ensures |events| > 0 && events[0] == Open(since)
      ensures done ==> |events| > 1 && events[|events| - 1] == Finish
      ensures IsWithin(events[1..if done then |events| - 1 else |events|])
    {
      hide Step;
      hide Run;
      hide IsRescan;
      var resume, newest := OpenInbox(since);
      RunFirst(old(Contents()), Open(since));
      events := [Open(since)];
      var list;
      ghost var more;
      list, more := Choose(resume, newest, since);
      RunAppend(old(Contents()), events, more);
      events := events + more;
      var lastUid := resume.GetOr(newest);
      if list.Some? {
        done, more := ReadAll(list.value);
        RunAppend(old(Contents()), events, more);
        events := events + more;
        if !done {
          return;
        }
        if resume.Some? && |list.value| > 0 {
          lastUid := list.value[|list.value| - 1].uid;
        }
      }
      SaveEnd(lastUid);
      RunOne(old(Contents()), events, Finish);
      events := events + [Finish];
      done := true;
    }
  }
}
