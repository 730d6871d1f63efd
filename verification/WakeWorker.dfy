/**
 The browser worker that wakes a chat by clicking its send button
 (prototypes/chatgpt-wake/worker.js:3-4, 27-28, 152-252). Every await is a boundary between steps, and
 the worker may be killed at any of them; only what it saved survives.
 */
module WakeWorker {
  import opened Prelude

  /** One incarnation of one binding. */
  type Key = nat

  datatype Status = Armed | Ready | Busy | Waiting | NotSent | ClickAttempted | UnknownOutcome | Trouble

  datatype Binding = Binding(armed: bool, removed: bool, uncertain: bool, status: Status)

  type Bindings = map<Key, Binding>

  datatype Action = Send | Wait | Prepare

  /** Where the one running job stands: the queue lets only one job run at a time. */
  datatype Place =
    | Idle
    | Choosing
    | Entering(key: Key)
    | Looping(key: Key, tick: nat)
    | Marked(key: Key, action: Action, tick: nat)
    | Stored(key: Key, action: Action, tick: nat)
    | Observed(key: Key, tick: nat)
    | Closing(key: Key)
    | Answering

  /** What happened to the page and to the bindings, in order. */
  datatype Mark = Called(key: Key) | Clicked(key: Key) | Polled(key: Key, pending: bool) | Rearmed(keys: set<Key>)

  datatype Worker = Worker(
    saved: Bindings, memory: Bindings, place: Place, cancelled: set<Key>, used: set<Key>, log: seq<Mark>)

  const TICKS: nat := 50

  // ---------------------------------------------------------------- what the environment decides

  /** What a mailbox poll and the tab search come to. */
  datatype Sight = Unavailable | NoMail | NoTab | OldMail | FreshMail

  /** How the composer call comes back: with its outcome, without one, or by throwing. */
  datatype Hearing = Heard | Lost | Threw

  datatype Event =
    | Kill
    | Fence(key: Key)
    | Alarm
    | Resume(keys: set<Key>)
    | Turn(key: Key, sight: Sight)
    | Tick(stillPending: bool)
    | Save(landed: bool, returned: bool)
    | Compose(outcome: Status, hearing: Hearing)
    | Finish
    | Add(key: Key)
    | Rearm(key: Key)
    | RearmAll
    | Remove(key: Key)

  predicate Composed(outcome: Status) { outcome in {Ready, Busy, Waiting, NotSent, ClickAttempted} }

  // ---------------------------------------------------------------- steps

  function Set(w: Worker, key: Key, b: Binding, place: Place): Worker {
    w.(memory := w.memory[key := b], place := place)
  }

  predicate Live(w: Worker, key: Key) {
    key in w.memory && w.memory[key].armed && !w.memory[key].removed && key !in w.cancelled
  }

  /** `check`, one binding: poll it and find its tab, before anything touches the page. */
  function TurnTo(w: Worker, key: Key, sight: Sight): Worker {
    if w.place != Choosing || !Live(w, key) then w
    else
      var b := w.memory[key];
      match sight
      case NoMail => Set(w, key, b.(status := if b.uncertain then Trouble else Armed), Closing(key))
      case FreshMail =>
        if b.uncertain then Set(w, key, b.(status := Trouble), Closing(key)) else w.(place := Entering(key))
      case _ => Set(w, key, b.(status := Trouble), Closing(key))
  }

  function ActionFor(status: Status): Action {
    if status == Ready then Send else if status == Busy then Wait else Prepare
  }

  /** One turn of the tick loop, up to the save that must precede the page. */
  function TickOn(w: Worker, stillPending: bool): Worker {
    if !w.place.Looping? || w.place.key !in w.memory then w
    else
      var key, tick := w.place.key, w.place.tick;
      var b := w.memory[key];
      if tick >= TICKS || key in w.cancelled then w.(place := Closing(key))
      else
        var action := ActionFor(b.status);
        var v := if action == Send then w.(log := w.log + [Polled(key, stillPending)]) else w;
        if action == Send && !stillPending then v.(place := Closing(key))
        else Set(v, key, b.(uncertain := true), Marked(key, action, tick))
  }

  /** A save, wherever one is due: it returns and has landed, or throws and may have landed. */
  function SaveAt(w: Worker, landed: bool, returned: bool): Worker {
    var after := if landed || returned then w.(saved := w.memory) else w;
    match w.place
    case Entering(key) => after.(place := if returned then Looping(key, 0) else Closing(key))
    case Marked(key, action, tick) =>
      if returned then after.(place := Stored(key, action, tick)) else after.(place := Closing(key))
    case Observed(key, tick) =>
      var again := returned && key in w.memory && w.memory[key].status in {Busy, Waiting, Ready};
      after.(place := if again then Looping(key, tick + 1) else Closing(key))
    case Closing(key) => if returned then after.(place := Choosing) else after.(place := Idle, memory := map[])
    case Answering => after.(place := Idle, memory := map[])
    case _ => w
  }

  /** The composer call: the page is only clicked for a send, and only a send reports a click. */
  function ComposeAt(w: Worker, outcome: Status, hearing: Hearing): Worker {
    if !w.place.Stored? || w.place.key !in w.memory || !Composed(outcome) then w
    else
      var key, tick := w.place.key, w.place.tick;
      var b := w.memory[key];
      if key in w.cancelled then w.(place := Closing(key))
      else if outcome == ClickAttempted && w.place.action != Send then w
      else
        var v := w.(log := w.log + [Called(key)] + if outcome == ClickAttempted then [Clicked(key)] else []);
        match hearing
        case Heard => Set(v, key, b.(status := outcome, uncertain := outcome == ClickAttempted), Observed(key, tick))
        case Lost => Set(v, key, b.(status := UnknownOutcome), Observed(key, tick))
        case Threw => Set(v, key, b.(status := Trouble), Closing(key))
  }

  function WithArmed(bs: Bindings, keys: set<Key>): Bindings {
    map k | k in bs :: if k in keys then bs[k].(armed := true) else bs[k]
  }

  function Cleared(bs: Bindings, keys: set<Key>): Bindings {
    map k | k in bs :: if k in keys then bs[k].(armed := true, uncertain := false, status := Armed) else bs[k]
  }

  lemma ClearedOneMore(bs: Bindings, keys: set<Key>, k: Key)
    requires k in bs && k !in keys
    ensures k in Cleared(bs, keys) && Cleared(bs, keys)[k] == bs[k]
    ensures Cleared(bs, keys + {k})
            == Cleared(bs, keys)[k := bs[k].(armed := true, uncertain := false, status := Armed)]
  {}

  function Usable(w: Worker): set<Key> { set k | k in w.saved && !w.saved[k].removed && k !in w.cancelled }

  /** One step. Handlers start only when no job runs; the fence and a kill may come at any time. */
  function Step(w: Worker, e: Event): Worker {
    match e
    case Kill => w.(memory := map[], place := Idle, cancelled := {})
    case Fence(key) => if key in w.saved then w.(cancelled := w.cancelled + {key}) else w
    case Turn(key, sight) => TurnTo(w, key, sight)
    case Tick(stillPending) => TickOn(w, stillPending)
    case Save(landed, returned) => SaveAt(w, landed, returned)
    case Compose(outcome, hearing) => ComposeAt(w, outcome, hearing)
    case Finish => if w.place == Choosing then w.(place := Answering) else w
    case Alarm => if w.place == Idle then w.(memory := w.saved, place := Choosing) else w
    case Resume(keys) =>
      if w.place != Idle then w else w.(memory := WithArmed(w.saved, keys * Usable(w)), place := Choosing)
    case Add(key) =>
      if w.place != Idle || key in w.used then w
      else w.(memory := w.saved[key := Binding(true, false, false, Armed)], place := Answering, used := w.used + {key})
    case Rearm(key) =>
      if w.place != Idle || key !in Usable(w) || !w.saved[key].uncertain then w
      else w.(memory := Cleared(w.saved, {key}), place := Answering, log := w.log + [Rearmed({key})])
    case RearmAll =>
      if w.place != Idle then w
      else w.(memory := Cleared(w.saved, Usable(w)), place := Answering, log := w.log + [Rearmed(Usable(w))])
    case Remove(key) =>
      if w.place != Idle || key !in w.saved then w
      else
        w.(memory := w.saved[key := w.saved[key].(removed := true, armed := false, status := Trouble)],
           place := Answering)
  }

  function Run(w: Worker, events: seq<Event>): Worker
    decreases |events|
  {
    if events == [] then w else Run(Step(w, events[0]), events[1..])
  }

  /** A worker with some saved bindings and nothing done yet. */
  function Fresh(saved: Bindings): Worker { Worker(saved, map[], Idle, {}, saved.Keys, []) }

  // ---------------------------------------------------------------- clicks and rearms

  /** Whether a click on `key` is still unanswered by a rearm once `m` has happened. */
  predicate Unanswered(m: Mark, key: Key, before: bool) {
    if m.Clicked? then m.key == key || before
    else if m.Rearmed? then key !in m.keys && before
    else before
  }

  /** `key` was clicked and not rearmed since. */
  predicate ClickedSince(log: seq<Mark>, key: Key) {
    log != [] && Unanswered(log[|log| - 1], key, ClickedSince(log[..|log| - 1], key))
  }

  /** Between any two clicks on one binding lies a rearm of it. */
  predicate Separated(log: seq<Mark>) {
    forall i, j :: 0 <= i < j < |log| && log[i].Clicked? && log[i] == log[j] ==>
      exists m :: i < m < j && log[m].Rearmed? && log[i].key in log[m].keys
  }

  lemma {:induction false} SinceMeans(log: seq<Mark>, key: Key, i: nat)
    requires i < |log| && log[i] == Clicked(key) && !ClickedSince(log, key)
    ensures exists m :: i < m < |log| && log[m].Rearmed? && key in log[m].keys
  {
    var last := |log| - 1;
    if i < last && !(log[last].Rearmed? && key in log[last].keys) {
      SinceMeans(log[..last], key, i);
      var m :| i < m < last && log[..last][m].Rearmed? && key in log[..last][m].keys;
      assert log[m] == log[..last][m];
    }
  }

  lemma SeparatedGrows(log: seq<Mark>, m: Mark)
    requires Separated(log) && (m.Clicked? ==> !ClickedSince(log, m.key))
    ensures Separated(log + [m])
  {
    var longer := log + [m];
    forall i, j | 0 <= i < j < |longer| && longer[i].Clicked? && longer[i] == longer[j]
      ensures exists k :: i < k < j && longer[k].Rearmed? && longer[i].key in longer[k].keys
    {
      if j == |log| {
        SinceMeans(log, m.key, i);
        var k :| i < k < |log| && log[k].Rearmed? && m.key in log[k].keys;
        assert longer[k] == log[k];
      } else {
        var k :| i < k < j && log[k].Rearmed? && log[i].key in log[k].keys;
        assert longer[k] == log[k];
      }
    }
  }

  lemma SinceGrows(log: seq<Mark>, m: Mark, key: Key)
    ensures ClickedSince(log + [m], key) == Unanswered(m, key, ClickedSince(log, key))
  {
    assert (log + [m])[..|log|] == log;
  }

  // ---------------------------------------------------------------- the invariant

  /** After a click the binding stays uncertain, in memory and on disk, until a rearm. */
  ghost predicate Guarded(w: Worker, bs: Bindings) {
    forall k <- bs :: k in w.used && (ClickedSince(w.log, k) ==> bs[k].uncertain)
  }

  predicate AboutToTouch(p: Place) { p.Entering? || p.Looping? || p.Marked? || p.Stored? }

  ghost predicate Inv(w: Worker) {
    && Separated(w.log) && Guarded(w, w.saved) && Guarded(w, w.memory)
    && (forall k :: ClickedSince(w.log, k) ==> k in w.used)
    && (AboutToTouch(w.place) ==> w.place.key in w.memory && !ClickedSince(w.log, w.place.key))
    && (w.place.Observed? && w.place.key in w.memory && w.memory[w.place.key].status in {Busy, Waiting, Ready} ==>
          !ClickedSince(w.log, w.place.key))
    && (w.place.Marked? || w.place.Stored? ==> w.memory[w.place.key].uncertain)
    && (w.place.Stored? ==> w.place.key in w.saved && w.saved[w.place.key].uncertain)
  }

  /** A step that leaves the log alone keeps the invariant as long as it clears nobody's doubt. */
  lemma QuietKeeps(w: Worker, v: Worker)
    requires Inv(w) && v.log == w.log && w.used <= v.used
    requires Guarded(v, v.saved) && Guarded(v, v.memory)
    requires AboutToTouch(v.place) ==> v.place.key in v.memory && !ClickedSince(w.log, v.place.key)
    requires v.place.Observed? ==> v.place == w.place && v.memory == w.memory
    requires v.place.Marked? || v.place.Stored? ==> v.memory[v.place.key].uncertain
    requires v.place.Stored? ==> v.place.key in v.saved && v.saved[v.place.key].uncertain
    ensures Inv(v)
  {
    hide Separated, ClickedSince;
  }

  lemma JobKeeps(w: Worker, e: Event)
    requires Inv(w) && (e.Turn? || e.Save?)
    ensures Inv(Step(w, e))
  {
    hide Separated, ClickedSince;
    if Step(w, e) != w { QuietKeeps(w, Step(w, e)); }
  }

  /** A poll in the log says nothing about clicks. */
  lemma PollKeeps(w: Worker, key: Key, pending: bool)
    requires Inv(w)
    ensures Inv(w.(log := w.log + [Polled(key, pending)]))
  {
    SeparatedGrows(w.log, Polled(key, pending));
    forall k ensures ClickedSince(w.log + [Polled(key, pending)], k) == ClickedSince(w.log, k) {
      SinceGrows(w.log, Polled(key, pending), k);
    }
    hide Separated, ClickedSince;
  }

  lemma TickKeeps(w: Worker, stillPending: bool)
    requires Inv(w)
    ensures Inv(TickOn(w, stillPending))
  {
    hide Separated, ClickedSince;
    var v := TickOn(w, stillPending);
    if v.log != w.log {
      PollKeeps(w, w.place.key, stillPending);
      QuietKeeps(w.(log := v.log), v);
    } else if v != w {
      QuietKeeps(w, v);
    }
  }

  /** What a composer call, with or without a click, does to the log. */
  lemma CallLogs(log: seq<Mark>, key: Key, clicked: bool)
    requires Separated(log) && !ClickedSince(log, key)
    ensures var longer := log + [Called(key)] + if clicked then [Clicked(key)] else [];
      Separated(longer) && forall k :: ClickedSince(longer, k) == ((clicked && k == key) || ClickedSince(log, k))
  {
    var called := log + [Called(key)];
    SeparatedGrows(log, Called(key));
    forall k ensures ClickedSince(called, k) == ClickedSince(log, k) { SinceGrows(log, Called(key), k); }
    if clicked {
      SeparatedGrows(called, Clicked(key));
      forall k ensures ClickedSince(called + [Clicked(key)], k) == (k == key || ClickedSince(log, k)) {
        SinceGrows(called, Clicked(key), k);
      }
    } else {
      assert called + [] == called;
    }
    hide Separated, ClickedSince;
  }

  lemma ComposeKeeps(w: Worker, outcome: Status, hearing: Hearing)
    requires Inv(w)
    ensures Inv(ComposeAt(w, outcome, hearing))
  {
    hide Separated, ClickedSince;
    var v := ComposeAt(w, outcome, hearing);
    if v.log != w.log {
      CallLogs(w.log, w.place.key, outcome == ClickAttempted);
    } else if v != w {
      QuietKeeps(w, v);
    }
  }

  lemma HandlerKeeps(w: Worker, e: Event)
    requires Inv(w) && !(e.Turn? || e.Tick? || e.Save? || e.Compose?)
    ensures Inv(Step(w, e))
  {
    var v := Step(w, e);
    if v.log == w.log {
      hide Separated, ClickedSince;
      QuietKeeps(w, v);
    } else {
      var m := v.log[|v.log| - 1];
      assert m.Rearmed? && v.log == w.log + [m];
      SeparatedGrows(w.log, m);
      forall k ensures ClickedSince(v.log, k) == (k !in m.keys && ClickedSince(w.log, k)) { SinceGrows(w.log, m, k); }
      hide Separated, ClickedSince;
    }
  }

  lemma StepKeeps(w: Worker, e: Event)
    requires Inv(w)
    ensures Inv(Step(w, e))
  {
    hide Inv;
    if e.Turn? || e.Save? { JobKeeps(w, e); }
    else if e.Tick? { TickKeeps(w, e.stillPending); }
    else if e.Compose? { ComposeKeeps(w, e.outcome, e.hearing); }
    else { HandlerKeeps(w, e); }
  }

  lemma {:induction false} RunKeeps(w: Worker, events: seq<Event>)
    requires Inv(w)
    ensures Inv(Run(w, events))
    decreases |events|
  {
    hide Inv, Step;
    if events != [] {
      StepKeeps(w, events[0]);
      RunKeeps(Step(w, events[0]), events[1..]);
    }
  }

  /**
   The main theorem. However the worker is killed, fenced, resumed and rearmed, two clicks on one
   binding are always separated by a rearm of that binding.
   */
  lemma ClicksAreSeparated(saved: Bindings, events: seq<Event>)
    ensures Separated(Run(Fresh(saved), events).log)
  {
    RunKeeps(Fresh(saved), events);
  }

  // ---------------------------------------------------------------- clicks and mail

  /** Every click is the end of a composer call that a poll of the same binding, with mail, came right before. */
  predicate Prompted(log: seq<Mark>) {
    forall i :: 0 <= i < |log| && log[i].Clicked? ==>
      i >= 2 && log[i - 1] == Called(log[i].key) && log[i - 2] == Polled(log[i].key, true)
  }

  /** A turn that is about to send has just seen the mail. */
  predicate Looked(w: Worker) {
    && Prompted(w.log)
    && ((w.place.Marked? || w.place.Stored?) && w.place.action == Send ==>
          w.log != [] && w.log[|w.log| - 1] == Polled(w.place.key, true))
  }

  lemma PromptedGrows(log: seq<Mark>, m: Mark)
    requires Prompted(log)
    requires m.Clicked? ==> |log| >= 2 && log[|log| - 1] == Called(m.key) && log[|log| - 2] == Polled(m.key, true)
    ensures Prompted(log + [m])
  {
    forall i | 0 <= i < |log + [m]| && (log + [m])[i].Clicked?
      ensures i >= 2 && (log + [m])[i - 1] == Called((log + [m])[i].key)
              && (log + [m])[i - 2] == Polled((log + [m])[i].key, true)
    {
      if i < |log| { assert (log + [m])[i] == log[i]; }
    }
  }

  lemma TickLooks(w: Worker, stillPending: bool)
    requires Looked(w)
    ensures Looked(TickOn(w, stillPending))
  {
    if w.place.Looping? { PromptedGrows(w.log, Polled(w.place.key, stillPending)); }
    hide Prompted;
  }

  lemma ComposeLooks(w: Worker, outcome: Status, hearing: Hearing)
    requires Looked(w)
    ensures Looked(ComposeAt(w, outcome, hearing))
  {
    if w.place.Stored? {
      var key := w.place.key;
      var called := w.log + [Called(key)];
      PromptedGrows(w.log, Called(key));
      if w.place.action == Send { PromptedGrows(called, Clicked(key)); }
      assert called + [] == called;
    }
    hide Prompted;
  }

  lemma SaveLooks(w: Worker, landed: bool, returned: bool)
    requires Looked(w)
    ensures Looked(SaveAt(w, landed, returned))
  {
    hide Prompted;
  }

  lemma OtherLooks(w: Worker, e: Event)
    requires Looked(w) && !e.Tick? && !e.Compose? && !e.Save?
    ensures Looked(Step(w, e))
  {
    var v := Step(w, e);
    if v.log != w.log {
      var m := v.log[|v.log| - 1];
      PromptedGrows(w.log, m);
      assert v.log == w.log + [m];
    }
    hide Prompted, Cleared, WithArmed, Usable;
  }

  lemma StepLooks(w: Worker, e: Event)
    requires Looked(w)
    ensures Looked(Step(w, e))
  {
    hide Looked;
    match e
    case Tick(stillPending) => TickLooks(w, stillPending);
    case Compose(outcome, hearing) => ComposeLooks(w, outcome, hearing);
    case Save(landed, returned) => SaveLooks(w, landed, returned);
    case _ => OtherLooks(w, e);
  }

  lemma {:induction false} RunLooks(w: Worker, events: seq<Event>)
    requires Looked(w)
    ensures Looked(Run(w, events))
    decreases |events|
  {
    hide Looked, Step;
    if events != [] {
      StepLooks(w, events[0]);
      RunLooks(Step(w, events[0]), events[1..]);
    }
  }

  /** Nobody is woken for mail that is gone: over every life of the worker each click has its own poll. */
  lemma ClicksArePrompted(saved: Bindings, events: seq<Event>)
    ensures Prompted(Run(Fresh(saved), events).log)
  {
    RunLooks(Fresh(saved), events);
  }

  /** A binding's turn goes on to the page exactly when it is armed, live, undoubted and has fresh mail. */
  lemma EntersExactly(w: Worker, key: Key, sight: Sight)
    ensures TurnTo(w, key, sight).place == Entering(key) && !w.place.Entering? <==>
      && w.place == Choosing && key in w.memory && key !in w.cancelled && sight == FreshMail
      && w.memory[key].armed && !w.memory[key].removed && !w.memory[key].uncertain
    ensures TurnTo(w, key, sight).memory != w.memory ==>
      w.place == Choosing && key in w.memory && w.memory[key].armed && !w.memory[key].removed && key !in w.cancelled
  {}

  /** A turn of the tick loop goes on exactly when it is one of the fifty, unfenced, and a send saw the mail. */
  lemma TicksOnExactly(w: Worker, stillPending: bool)
    requires w.place.Looping? && w.place.key in w.memory
    ensures var b := w.memory[w.place.key]; var v := TickOn(w, stillPending);
      && (v.place.Marked? <==> w.place.tick < 50 && w.place.key !in w.cancelled && (b.status == Ready ==> stillPending))
      && (v.place.Marked? ==>
            && v.place.tick == w.place.tick && v.place.key == w.place.key && v.memory[w.place.key].uncertain
            && (v.place.action == Send <==> b.status == Ready) && (v.place.action == Wait <==> b.status == Busy))
      && (!v.place.Marked? ==> v.place == Closing(w.place.key) && v.memory == w.memory)
      && v.saved == w.saved
      && v.log == w.log + if w.place.tick < 50 && w.place.key !in w.cancelled && b.status == Ready
                          then [Polled(w.place.key, stillPending)] else []
  {}

  /** The page is touched exactly by a stored, unfenced turn, and clicked exactly by one that sends. */
  lemma TouchesExactly(w: Worker, e: Event, key: Key)
    ensures Calls(Step(w, e).log, key) > Calls(w.log, key) <==>
      && e.Compose? && w.place.Stored? && w.place.key == key && key in w.memory && key !in w.cancelled
      && (e.outcome in {Ready, Busy, Waiting, NotSent} || (e.outcome == ClickAttempted && w.place.action == Send))
  {
    hide Calls;
    StepCalls(w, e, key);
    if e.Compose? { ComposeTouches(w, e.outcome, e.hearing, key); } else { hide *; }
  }

  lemma ComposeTouches(w: Worker, outcome: Status, hearing: Hearing, key: Key)
    ensures Calls(ComposeAt(w, outcome, hearing).log, key) > Calls(w.log, key) <==>
      && w.place.Stored? && w.place.key == key && key in w.memory && key !in w.cancelled
      && (outcome in {Ready, Busy, Waiting, NotSent} || (outcome == ClickAttempted && w.place.action == Send))
  {
    hide Calls;
    var v := ComposeAt(w, outcome, hearing);
    if v.log != w.log {
      var k := w.place.key;
      CallsGrow(w.log, Called(k), key);
      CallsGrow(w.log + [Called(k)], Clicked(k), key);
      assert v.log == w.log + [Called(k)] || v.log == w.log + [Called(k)] + [Clicked(k)];
    }
  }

  // ---------------------------------------------------------------- the fence

  /** How often the composer was called for `key`. */
  function Calls(log: seq<Mark>, key: Key): nat {
    if log == [] then 0 else Calls(log[..|log| - 1], key) + if log[|log| - 1] == Called(key) then 1 else 0
  }

  lemma CallsGrow(log: seq<Mark>, m: Mark, key: Key)
    ensures Calls(log + [m], key) == Calls(log, key) + if m == Called(key) then 1 else 0
  {
    assert (log + [m])[..|log|] == log;
  }

  /** A step adds no call for `key` unless it is the composer step of `key` itself. */
  lemma StepCalls(w: Worker, e: Event, key: Key)
    ensures Calls(Step(w, e).log, key) > Calls(w.log, key) ==>
              e.Compose? && w.place.Stored? && w.place.key == key && key !in w.cancelled
  {
    hide Calls;
    var v := Step(w, e);
    if e.Compose? && v.log != w.log {
      var k := w.place.key;
      CallsGrow(w.log, Called(k), key);
      CallsGrow(w.log + [Called(k)], Clicked(k), key);
      assert v.log == w.log + [Called(k)] || v.log == w.log + [Called(k)] + [Clicked(k)];
    } else if e.Tick? && v.log != w.log {
      CallsGrow(w.log, Polled(w.place.key, e.stillPending), key);
    } else if v.log != w.log {
      assert v.log == w.log + [Rearmed(v.log[|v.log| - 1].keys)];
      CallsGrow(w.log, v.log[|v.log| - 1], key);
    }
  }

  /** Once a binding is fenced, the page is not touched for it until the worker restarts. */
  lemma {:induction false} FenceHolds(w: Worker, events: seq<Event>, key: Key)
    requires key in w.cancelled && forall e <- events :: !e.Kill?
    ensures key in Run(w, events).cancelled && Calls(Run(w, events).log, key) <= Calls(w.log, key)
    decreases |events|
  {
    if events != [] {
      StepCalls(w, events[0], key);
      assert events[0] in events;
      FenceHolds(Step(w, events[0]), events[1..], key);
    }
  }

  // ---------------------------------------------------------------- removal

  /** A saved removal, with no job left that read the binding before. */
  predicate Gone(w: Worker, key: Key) {
    && (key in w.saved ==> w.saved[key].removed) && (key in w.memory ==> w.memory[key].removed)
    && key in w.used && !((AboutToTouch(w.place) || w.place.Observed?) && w.place.key == key)
  }

  lemma GoneStays(w: Worker, e: Event, key: Key)
    requires Gone(w, key)
    ensures Gone(Step(w, e), key)
  {}

  /** Once a removal is saved, the page is never touched for that binding again, restarts included. */
  lemma {:induction false} RemovalIsFinal(w: Worker, events: seq<Event>, key: Key)
    requires Gone(w, key)
    ensures Calls(Run(w, events).log, key) <= Calls(w.log, key)
    decreases |events|
  {
    if events != [] {
      hide Step, Calls;
      StepCalls(w, events[0], key);
      GoneStays(w, events[0], key);
      RemovalIsFinal(Step(w, events[0]), events[1..], key);
    }
  }

  /** The removal handler, once its save has landed, leaves the binding gone. */
  lemma RemoveMakesGone(w: Worker, key: Key, returned: bool)
    requires w.place == Idle && key in w.saved && Inv(w)
    ensures Gone(Run(w, [Remove(key), Save(true, returned)]), key)
  {
    var one := Step(w, Remove(key));
    assert Run(w, [Remove(key), Save(true, returned)]) == Step(one, Save(true, returned)) by {
      assert [Remove(key), Save(true, returned)][1..] == [Save(true, returned)];
      assert Run(one, [Save(true, returned)]) == Run(Step(one, Save(true, returned)), []);
    }
    assert one.memory[key].removed;
  }

  // ---------------------------------------------------------------- the worker itself

  /** `rearm-all`: walks the bindings and clears each one that is neither removed nor fenced. */
  method ClearAll(saved: Bindings, cancelled: set<Key>) returns (bindings: Bindings, cleared: set<Key>)
    ensures forall k :: k in cleared <==> k in saved && !saved[k].removed && k !in cancelled
    ensures bindings == Cleared(saved, cleared)
  {
    bindings, cleared := saved, {};
    var todo := saved.Keys;
    assert Cleared(saved, {}) == saved;
    hide Cleared;
    while todo != {}
      invariant todo <= saved.Keys
      invariant forall k :: k in cleared <==> k in saved && k !in todo && !saved[k].removed && k !in cancelled
      invariant bindings == Cleared(saved, cleared)
      decreases |todo|
    {
      var k :| k in todo;
      RemoveShrinks(todo, k);
      todo := todo - {k};
      if !saved[k].removed && k !in cancelled {
        ClearedOneMore(saved, cleared, k);
        bindings := bindings[k := bindings[k].(armed := true, uncertain := false, status := Armed)];
        cleared := cleared + {k};
      }
    }
  }

  /** The worker as it runs: its bindings are changed in place, and saved as a whole. */
  class Extension {
    var saved: Bindings
    var memory: Bindings
    var place: Place
    var cancelled: set<Key>
    var used: set<Key>
    var log: seq<Mark>

    function Now(): Worker
      reads this
    {
      Worker(saved, memory, place, cancelled, used, log)
    }

    constructor (bindings: Bindings)
      ensures Now() == Fresh(bindings)
    {
      saved, memory, place, cancelled, used, log := bindings, map[], Idle, {}, bindings.Keys, [];
    }

    /** One binding of a `check`. */
    method Turn(key: Key, sight: Sight)
      modifies this`memory, this`place
      ensures Now() == TurnTo(old(Now()), key, sight)
    {
      if place != Choosing || key !in memory { return; }
      if !memory[key].armed || memory[key].removed || key in cancelled { return; }
      var b := memory[key];
      match sight
      case NoMail => memory, place := memory[key := b.(status := if b.uncertain then Trouble else Armed)], Closing(key);
      case FreshMail =>
        if b.uncertain {
          memory, place := memory[key := b.(status := Trouble)], Closing(key);
        } else {
          place := Entering(key);
        }
      case _ => memory, place := memory[key := b.(status := Trouble)], Closing(key);
    }

    /** One turn of the tick loop, up to the save. */
    method Tick(stillPending: bool)
      modifies this`memory, this`place, this`log
      ensures Now() == TickOn(old(Now()), stillPending)
    {
      if !place.Looping? || place.key !in memory { return; }
      var key, tick := place.key, place.tick;
      var b := memory[key];
      var action := if b.status == Ready then Send else if b.status == Busy then Wait else Prepare;
      if tick >= TICKS || key in cancelled {
        place := Closing(key);
        return;
      }
      if action == Send {
        log := log + [Polled(key, stillPending)];
        if !stillPending {
          place := Closing(key);
          return;
        }
      }
      memory := memory[key := b.(uncertain := true)];
      place := Marked(key, action, tick);
    }

    /** `save`, wherever one is awaited. */
    method Save(landed: bool, returned: bool)
      modifies this`saved, this`memory, this`place
      ensures Now() == SaveAt(old(Now()), landed, returned)
    {
      if place == Idle || place == Choosing || place.Looping? || place.Stored? { return; }
      if landed || returned { saved := memory; }
      match place
      case Entering(key) => place := if returned then Looping(key, 0) else Closing(key);
      case Marked(key, action, tick) => place := if returned then Stored(key, action, tick) else Closing(key);
      case Observed(key, tick) =>
        var again := returned && key in memory && memory[key].status in {Busy, Waiting, Ready};
        place := if again then Looping(key, tick + 1) else Closing(key);
      case Closing(_) => if returned { place := Choosing; } else { place, memory := Idle, map[]; }
      case Answering => place, memory := Idle, map[];
      case _ =>
    }

    /** The composer call, fenced once more right before it. */
    method Compose(outcome: Status, hearing: Hearing)
      modifies this`memory, this`place, this`log
      ensures Now() == ComposeAt(old(Now()), outcome, hearing)
    {
      if !place.Stored? || place.key !in memory || !Composed(outcome) { return; }
      var key, tick := place.key, place.tick;
      if key in cancelled {
        place := Closing(key);
        return;
      }
      if outcome == ClickAttempted && place.action != Send { return; }
      log := log + [Called(key)] + if outcome == ClickAttempted then [Clicked(key)] else [];
      var b := memory[key];
      match hearing
      case Heard =>
        memory := memory[key := b.(status := outcome, uncertain := outcome == ClickAttempted)];
        place := Observed(key, tick);
      case Lost => memory, place := memory[key := b.(status := UnknownOutcome)], Observed(key, tick);
      case Threw => memory, place := memory[key := b.(status := Trouble)], Closing(key);
    }

    method ClearUsable()
      requires place == Idle
      modifies this`memory, this`place, this`log
      ensures Now() == Step(old(Now()), Event.RearmAll)
    {
      var bindings, cleared := ClearAll(saved, cancelled);
      assert cleared == Usable(Now());
      hide Cleared;
      memory, place, log := bindings, Answering, log + [Rearmed(cleared)];
    }

    /** One event of any kind; what it does is exactly the step it stands for. */
    method Handle(e: Event)
      modifies this
      ensures Now() == Step(old(Now()), e)
    {
      match e
      case Kill => memory, place, cancelled := map[], Idle, {};
      case Fence(key) => if key in saved { cancelled := cancelled + {key}; }
      case Turn(key, sight) => Turn(key, sight);
      case Tick(stillPending) => Tick(stillPending);
      case Save(landed, returned) => Save(landed, returned);
      case Compose(outcome, hearing) => Compose(outcome, hearing);
      case Finish => if place == Choosing { place := Answering; }
      case Alarm => if place == Idle { memory, place := saved, Choosing; }
      case Resume(keys) => if place == Idle { memory, place := WithArmed(saved, keys * Usable(Now())), Choosing; }
      case Add(key) =>
        if place == Idle && key !in used {
          memory, place, used := saved[key := Binding(true, false, false, Armed)], Answering, used + {key};
        }
      case Rearm(key) =>
        if place == Idle && key in saved && !saved[key].removed && key !in cancelled && saved[key].uncertain {
          memory, place, log := Cleared(saved, {key}), Answering, log + [Rearmed({key})];
        }
      case RearmAll => if place == Idle { ClearUsable(); }
      case Remove(key) =>
        if place == Idle && key in saved {
          memory := saved[key := saved[key].(removed := true, armed := false, status := Trouble)];
          place := Answering;
        }
    }

    /** A whole life of the worker, kills included. */
    method Live(events: seq<Event>)
      requires exists bindings :: Now() == Fresh(bindings)
      modifies this
      ensures Now() == Run(old(Now()), events)
      ensures Separated(log)
    {
      ghost var bindings :| Now() == Fresh(bindings);
      ghost var start := Now();
      hide Step, Separated;
      for i := 0 to |events|
        invariant Run(start, events) == Run(Now(), events[i..])
      {
        assert events[i..][0] == events[i] && events[i..][1..] == events[i + 1..];
        Handle(events[i]);
      }
      ClicksAreSeparated(bindings, events);
    }
  }
}
