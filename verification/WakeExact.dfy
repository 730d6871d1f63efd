/**
 The worker's steps, exactly: what every message does to the saved bindings, what a kill and a lost save
 cost, and that a calm check of a binding with fresh mail ends in its click
 (prototypes/chatgpt-wake/worker.js:155-264).
 */
module WakeExact {
  import opened Prelude
  import opened WakeWorker

  // ---------------------------------------------------------------- the queue

  predicate IsMessage(e: Event) { e.Resume? || e.Add? || e.Rearm? || e.RearmAll? || e.Remove? }

  /** A worker at rest has nothing in memory; a job at work has read what was saved. */
  predicate Rests(w: Worker) {
    w.saved.Keys <= w.used && w.memory.Keys <= w.used && (w.place == Idle ==> w.memory == map[])
  }

  lemma RestsKeeps(w: Worker, e: Event)
    requires Rests(w)
    ensures Rests(Step(w, e))
  {}

  lemma {:induction false} RestsAlways(w: Worker, events: seq<Event>)
    requires Rests(w)
    ensures Rests(Run(w, events))
    decreases |events|
  {
    hide Step, Rests;
    if events != [] {
      RestsKeeps(w, events[0]);
      RestsAlways(Step(w, events[0]), events[1..]);
    }
  }

  /** One job at a time: alarms and messages wait their turn, and each starts from what was saved. */
  lemma JobsExclude(w: Worker, e: Event)
    requires e.Alarm? || IsMessage(e)
    ensures w.place != Idle ==> Step(w, e) == w
    ensures e.Alarm? && w.place == Idle ==> Step(w, e) == w.(memory := w.saved, place := Choosing)
  {}

  /** A kill costs the memory and the fences, and nothing else; a fence only ever adds itself. */
  lemma KillsExactly(w: Worker, key: Key)
    ensures Step(w, Kill) == Worker(w.saved, map[], Idle, {}, w.used, w.log)
    ensures Step(w, Fence(key))
            == Worker(w.saved, w.memory, w.place, if key in w.saved then w.cancelled + {key} else w.cancelled,
                      w.used, w.log)
    ensures Step(w, Finish)
            == Worker(w.saved, w.memory, if w.place == Choosing then Answering else w.place, w.cancelled, w.used, w.log)
  {}

  // ---------------------------------------------------------------- messages

  /** Saved, and neither removed nor fenced. */
  predicate Open(w: Worker, k: Key) { k in w.saved && !w.saved[k].removed && k !in w.cancelled }

  predicate Adds(w: Worker, e: Event, k: Key) { e == Event.Add(k) && k !in w.used }

  /** The messages that take doubt away from `k`: a rearm of its own, if it is in doubt, or one of all. */
  predicate Clears(w: Worker, e: Event, k: Key) {
    Open(w, k) && ((e == Event.Rearm(k) && w.saved[k].uncertain) || e == Event.RearmAll)
  }

  /** A message followed by the end of its job and its save. */
  function Message(w: Worker, e: Event, landed: bool, returned: bool): Worker {
    var done := if e.Resume? then Step(Step(w, e), Finish) else Step(w, e);
    Step(done, Save(landed, returned))
  }

  /** What a message whose save landed does to each binding, field by field, and to the log. */
  lemma MessagesExactly(w: Worker, e: Event, k: Key, returned: bool)
    requires w.place == Idle && Rests(w) && IsMessage(e)
    ensures var v := Message(w, e, true, returned);
      && v.place == Idle && v.memory == map[] && v.cancelled == w.cancelled
      && (k in v.used <==> k in w.used || e == Event.Add(k))
      && (k in v.saved <==> k in w.saved || Adds(w, e, k))
      && (k in v.saved ==>
            && (v.saved[k].removed <==> k in w.saved && (w.saved[k].removed || e == Remove(k)))
            && (v.saved[k].uncertain <==> k in w.saved && w.saved[k].uncertain && !Clears(w, e, k))
            && (v.saved[k].armed <==>
                  || Adds(w, e, k) || Clears(w, e, k)
                  || (k in w.saved && w.saved[k].armed && e != Remove(k))
                  || (Open(w, k) && e.Resume? && k in e.keys))
            && v.saved[k].status
               == if Adds(w, e, k) || Clears(w, e, k) then Armed
                  else if e == Remove(k) then Trouble else w.saved[k].status)
  {
    hide Cleared, Usable, WithArmed;
    MessageBinds(w, e, k);
    MessageEnds(w, e, returned);
  }

  /** The log names the bindings whose doubt a message took, one for a rearm, all that are open for all. */
  lemma RearmsAreLogged(w: Worker, e: Event, landed: bool, returned: bool)
    requires w.place == Idle && Rests(w) && IsMessage(e)
    ensures var v := Message(w, e, landed, returned);
      v.log == w.log + if e.RearmAll? then [Rearmed(set k | k in w.saved && Open(w, k))]
                       else if e.Rearm? && Clears(w, e, e.key) then [Rearmed({e.key})] else []
  {
    assert (set k | k in w.saved && Open(w, k)) == Usable(w);
    hide Cleared, WithArmed;
  }

  lemma MessageEnds(w: Worker, e: Event, returned: bool)
    requires w.place == Idle && Rests(w) && IsMessage(e)
    ensures var m, v := Step(w, e), Message(w, e, true, returned);
      && v.place == Idle && v.memory == map[] && v.cancelled == w.cancelled && v.used == m.used
      && v.saved == if m.place == Idle then w.saved else m.memory
  {
    hide Cleared, Usable, WithArmed;
  }

  lemma MessageBinds(w: Worker, e: Event, k: Key)
    requires w.place == Idle && Rests(w) && IsMessage(e)
    ensures var m := Step(w, e); var bs := if m.place == Idle then w.saved else m.memory;
      && (k in m.used <==> k in w.used || e == Event.Add(k))
      && (k in bs <==> k in w.saved || Adds(w, e, k))
      && (k in bs ==>
            && (bs[k].removed <==> k in w.saved && (w.saved[k].removed || e == Remove(k)))
            && (bs[k].uncertain <==> k in w.saved && w.saved[k].uncertain && !Clears(w, e, k))
            && (bs[k].armed <==>
                  || Adds(w, e, k) || Clears(w, e, k)
                  || (k in w.saved && w.saved[k].armed && e != Remove(k))
                  || (Open(w, k) && e.Resume? && k in e.keys))
            && bs[k].status
               == if Adds(w, e, k) || Clears(w, e, k) then Armed
                  else if e == Remove(k) then Trouble else w.saved[k].status)
  {}

  /** A message whose save is lost leaves everything saved as it was. */
  lemma LostMessages(w: Worker, e: Event)
    requires w.place == Idle && Rests(w) && IsMessage(e)
    ensures var v := Message(w, e, false, false);
      v.place == Idle && v.memory == map[] && v.saved == w.saved && v.cancelled == w.cancelled
  {
    hide Cleared, Usable, WithArmed;
  }

  // ---------------------------------------------------------------- a turn

  /** Every turn that does not go on closes with a status; only a clean poll without mail shows Armed. */
  lemma TurnsExactly(w: Worker, key: Key, sight: Sight)
    requires w.place == Choosing && key in w.memory && key !in w.cancelled
    requires w.memory[key].armed && !w.memory[key].removed
    ensures var v, b := TurnTo(w, key, sight), w.memory[key];
      && v.saved == w.saved && v.log == w.log
      && v.place == (if sight == FreshMail && !b.uncertain then Entering(key) else Closing(key))
      && v.memory == (if sight == FreshMail && !b.uncertain then w.memory
                      else w.memory[key := b.(status := if sight == NoMail && !b.uncertain then Armed else Trouble)])
  {}

  /** A save that is due writes all of memory if it lands; one that throws ends the turn, or the job. */
  lemma SavesExactly(w: Worker, landed: bool, returned: bool)
    requires w.place.Entering? || w.place.Marked? || w.place.Observed? || w.place.Closing? || w.place.Answering?
    ensures var v := SaveAt(w, landed, returned);
      && v.saved == (if landed || returned then w.memory else w.saved) && v.log == w.log
      && (!returned && !w.place.Closing? && !w.place.Answering? ==>
            v.place == Closing(w.place.key) && v.memory == w.memory)
      && (!returned && w.place.Closing? ==> v.place == Idle && v.memory == map[])
      && (returned && w.place.Closing? ==> v.place == Choosing && v.memory == w.memory)
      && (w.place.Answering? ==> v.place == Idle && v.memory == map[])
      && (returned && w.place.Observed? && w.place.key in w.memory ==>
            v.place == if w.memory[w.place.key].status in {Busy, Waiting, Ready}
                       then Looping(w.place.key, w.place.tick + 1) else Closing(w.place.key))
  {}

  /** A save at any other place is not due. */
  lemma NoOtherSaves(w: Worker, landed: bool, returned: bool)
    requires w.place == Idle || w.place == Choosing || w.place.Looping? || w.place.Stored?
    ensures SaveAt(w, landed, returned) == w
  {}

  /** A composer call takes doubt away exactly by an outcome it reports that is no click. */
  lemma CallsExactly(w: Worker, outcome: Status, hearing: Hearing)
    requires w.place.Stored? && w.place.key in w.memory && w.memory[w.place.key].uncertain
    requires outcome in {Ready, Busy, Waiting, NotSent} || (outcome == ClickAttempted && w.place.action == Send)
    ensures var v, key := ComposeAt(w, outcome, hearing), w.place.key; var b := w.memory[key];
      if key in w.cancelled then v == w.(place := Closing(key))
      else
        && v.log == w.log + [Called(key)] + (if outcome == ClickAttempted then [Clicked(key)] else [])
        && v.memory == w.memory[key :=
             b.(status := if hearing == Heard then outcome else if hearing == Lost then UnknownOutcome else Trouble,
                uncertain := hearing != Heard || outcome == ClickAttempted)]
        && v.place == (if hearing == Threw then Closing(key) else Observed(key, w.place.tick))
        && v.saved == w.saved && v.cancelled == w.cancelled
  {}

  // ---------------------------------------------------------------- a calm check

  lemma {:induction false} RunSplits(w: Worker, first: seq<Event>, second: seq<Event>)
    ensures Run(w, first + second) == Run(Run(w, first), second)
    decreases |first|
  {
    hide Step;
    if first == [] {
      assert first + second == second;
    } else {
      assert (first + second)[0] == first[0] && (first + second)[1..] == first[1..] + second;
      RunSplits(Step(w, first[0]), first[1..], second);
    }
  }

  lemma RunOne(w: Worker, e: Event)
    ensures Run(w, [e]) == Step(w, e)
  {
    hide Step;
    assert Run(Step(w, e), []) == Step(w, e);
  }

  /** One turn of the tick loop in which every save returns and the composer answers. */
  function Look(outcome: Status): seq<Event> {
    [Tick(true)] + [Save(true, true)] + [Compose(outcome, Heard)] + [Save(true, true)]
  }

  function Looks(outcomes: seq<Status>): seq<Event> {
    if outcomes == [] then [] else Look(outcomes[0]) + Looks(outcomes[1..])
  }

  /** What looking leaves in the log: a poll before each send, and each call. */
  function LookLog(key: Key, status: Status, outcomes: seq<Status>): seq<Mark>
    decreases |outcomes|
  {
    if outcomes == [] then []
    else
      (if status == Ready then [Polled(key, true)] else []) + [Called(key)] + LookLog(key, outcomes[0], outcomes[1..])
  }

  lemma LookExactly(w: Worker, outcome: Status)
    requires w.place.Looping? && w.place.key in w.memory && w.place.key !in w.cancelled && w.place.tick < 50
    requires outcome in {Busy, Waiting, Ready} || (outcome == ClickAttempted && w.memory[w.place.key].status == Ready)
    ensures var key := w.place.key; var b := w.memory[key];
      var bs := w.memory[key := b.(uncertain := outcome == ClickAttempted, status := outcome)];
      Run(w, Look(outcome)) ==
        Worker(bs, bs, if outcome == ClickAttempted then Closing(key) else Looping(key, w.place.tick + 1),
               w.cancelled, w.used,
               w.log + (if b.status == Ready then [Polled(key, true)] else []) + [Called(key)]
               + if outcome == ClickAttempted then [Clicked(key)] else [])
  {
    var ticked := Step(w, Tick(true));
    var stored := Step(ticked, Save(true, true));
    var composed := Step(stored, Compose(outcome, Heard));
    RunOne(w, Tick(true));
    RunOne(ticked, Save(true, true));
    RunOne(stored, Compose(outcome, Heard));
    RunOne(composed, Save(true, true));
    RunSplits(w, [Tick(true)], [Save(true, true)]);
    RunSplits(w, [Tick(true)] + [Save(true, true)], [Compose(outcome, Heard)]);
    RunSplits(w, [Tick(true)] + [Save(true, true)] + [Compose(outcome, Heard)], [Save(true, true)]);
    hide Run;
  }

  lemma {:induction false} LooksExactly(w: Worker, outcomes: seq<Status>)
    requires w.place.Looping? && w.place.key in w.memory && w.place.key !in w.cancelled
    requires w.place.tick + |outcomes| <= 50 && forall o <- outcomes :: o in {Busy, Waiting, Ready}
    ensures var key := w.place.key; var b, n := w.memory[key], |outcomes|;
      var bs := w.memory[key := b.(uncertain := false, status := if n == 0 then Ready else outcomes[n - 1])];
      Run(w, Looks(outcomes)) ==
        if n == 0 then w
        else Worker(bs, bs, Looping(key, w.place.tick + n), w.cancelled, w.used,
                    w.log + LookLog(key, b.status, outcomes))
    decreases |outcomes|
  {
    hide Step;
    if outcomes != [] {
      var v, rest := Run(w, Look(outcomes[0])), outcomes[1..];
      RunSplits(w, Look(outcomes[0]), Looks(rest));
      assert outcomes[0] in outcomes && forall o <- rest :: o in outcomes;
      LookExactly(w, outcomes[0]);
      LooksExactly(v, rest);
      assert v.log + LookLog(w.place.key, outcomes[0], rest)
          == w.log + LookLog(w.place.key, w.memory[w.place.key].status, outcomes);
      hide Run, LookLog;
    }
  }

  /** How a check begins for its one binding with mail, and how it ends. */
  function Opens(key: Key): seq<Event> { [Alarm] + [Turn(key, FreshMail)] + [Save(true, true)] }

  function Shuts(): seq<Event> { [Save(true, true)] + [Finish] + [Save(true, true)] }

  predicate Wakeable(w: Worker, key: Key) {
    && w.place == Idle && key in w.saved && key !in w.cancelled
    && w.saved[key].armed && !w.saved[key].removed && !w.saved[key].uncertain
  }

  lemma OpensExactly(w: Worker, key: Key)
    requires Wakeable(w, key)
    ensures Run(w, Opens(key)) == w.(memory := w.saved, place := Looping(key, 0))
  {
    var checked := Step(w, Alarm);
    var entered := Step(checked, Turn(key, FreshMail));
    RunOne(w, Alarm);
    RunOne(checked, Turn(key, FreshMail));
    RunOne(entered, Save(true, true));
    RunSplits(w, [Alarm], [Turn(key, FreshMail)]);
    RunSplits(w, [Alarm] + [Turn(key, FreshMail)], [Save(true, true)]);
    hide Run;
  }

  lemma ShutsExactly(w: Worker)
    requires w.place.Closing?
    ensures Run(w, Shuts()) == w.(saved := w.memory, memory := map[], place := Idle)
  {
    var closed := Step(w, Save(true, true));
    var finished := Step(closed, Finish);
    RunOne(w, Save(true, true));
    RunOne(closed, Finish);
    RunOne(finished, Save(true, true));
    RunSplits(w, [Save(true, true)], [Finish]);
    RunSplits(w, [Save(true, true)] + [Finish], [Save(true, true)]);
    hide Run;
  }

  /**
   A calm check of an armed, live binding without doubt and with fresh mail: after up to forty-nine looks,
   the last of which shows the page ready, it clicks once, and the binding is in doubt from then on.
   */
  lemma CalmCheckClicks(w: Worker, key: Key, outcomes: seq<Status>)
    requires Wakeable(w, key)
    requires 1 <= |outcomes| <= 49 && outcomes[|outcomes| - 1] == Ready
    requires forall o <- outcomes :: o in {Busy, Waiting, Ready}
    ensures Run(w, Opens(key) + Looks(outcomes) + Look(ClickAttempted) + Shuts()) ==
      Worker(w.saved[key := w.saved[key].(uncertain := true, status := ClickAttempted)], map[], Idle,
             w.cancelled, w.used,
             w.log + LookLog(key, w.saved[key].status, outcomes) + [Polled(key, true), Called(key), Clicked(key)])
  {
    var begun := Run(w, Opens(key));
    var looked := Run(begun, Looks(outcomes));
    var clicked := Run(looked, Look(ClickAttempted));
    RunSplits(w, Opens(key), Looks(outcomes));
    RunSplits(w, Opens(key) + Looks(outcomes), Look(ClickAttempted));
    RunSplits(w, Opens(key) + Looks(outcomes) + Look(ClickAttempted), Shuts());
    OpensExactly(w, key);
    LooksExactly(begun, outcomes);
    LookExactly(looked, ClickAttempted);
    ShutsExactly(clicked);
    assert [Polled(key, true)] + [Called(key)] + [Clicked(key)] == [Polled(key, true), Called(key), Clicked(key)];
    hide Run, Looks, Look, LookLog;
  }

  /** After fifty looks the check gives up: no click, and no doubt. */
  lemma FiftyLooksGiveUp(w: Worker, key: Key, outcomes: seq<Status>)
    requires Wakeable(w, key) && |outcomes| == 50 && forall o <- outcomes :: o in {Busy, Waiting, Ready}
    ensures Run(w, Opens(key) + Looks(outcomes) + [Tick(true)] + Shuts()) ==
      Worker(w.saved[key := w.saved[key].(status := outcomes[49])], map[], Idle, w.cancelled, w.used,
             w.log + LookLog(key, w.saved[key].status, outcomes))
  {
    var begun := Run(w, Opens(key));
    var looked := Run(begun, Looks(outcomes));
    var ended := Run(looked, [Tick(true)]);
    RunSplits(w, Opens(key), Looks(outcomes));
    RunSplits(w, Opens(key) + Looks(outcomes), [Tick(true)]);
    RunSplits(w, Opens(key) + Looks(outcomes) + [Tick(true)], Shuts());
    OpensExactly(w, key);
    LooksExactly(begun, outcomes);
    RunOne(looked, Tick(true));
    ShutsExactly(ended);
    hide Run, Looks, LookLog;
  }
}
