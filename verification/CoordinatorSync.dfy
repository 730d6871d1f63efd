/**
 The coordinator's fast-forward of one checkout (src/switchstand/coordinator_sync.py:222-416). Every
 git command may fail, time out or, for the merge, take effect although it failed; what is reported
 as the effect is nevertheless exact.
 */
module CoordinatorSync {
  import opened Prelude

  type Sha = nat

  /** How one git command ends, and what the environment adds to it. */
  datatype Ending = Good | Nonzero | Raised

  /** `moved` and `dirtied` say what a merge that did not end well left behind; `remote` what main is now. */
  datatype Answer = Answer(ending: Ending, moved: bool, dirtied: bool, remote: Sha)

  const CALM := Answer(Good, false, false, 0)

  datatype Effect = Applied | NotSent | Unclear
  datatype Status = Done | NotApplied | Unknown

  datatype SyncResult = SyncResult(
    status: Status, effect: Effect, previous: Option<Sha>, target: Sha, resulting: Option<Sha>)

  datatype Handoff = Ready | Blocked | Unresolved
  datatype HandoffResult = HandoffResult(
    verdict: Handoff, effect: Effect, previous: Option<Sha>, resulting: Option<Sha>)

  function Unchanged(current: Sha, target: Sha): SyncResult {
    SyncResult(NotApplied, NotSent, Some(current), target, Some(current))
  }

  /** Each commit's ancestors, itself included. */
  type Ancestry = Sha -> set<Sha>

  ghost predicate Lineage(ancestry: Ancestry) {
    && (forall c :: c in ancestry(c))
    && (forall a, b, c :: a in ancestry(b) && b in ancestry(c) ==> a in ancestry(c))
  }

  /** What a reported effect claims about the checkout before and after. */
  predicate Exact(
    ancestry: Ancestry, effect: Effect, target: Option<Sha>, before: Sha, wasClean: bool, head: Sha, clean: bool)
  {
    match effect
    case NotSent => head == before && clean == wasClean
    case Applied => clean && wasClean && head != before && target == Some(head) && before in ancestry(head)
    case Unclear => before in ancestry(head) && wasClean && (head == before || target == Some(head))
  }

  // ---------------------------------------------------------------- what a merge needs

  function First(s: seq<Answer>): Answer { if s == [] then CALM else s[0] }
  function Tail(s: seq<Answer>): seq<Answer> { if s == [] then [] else s[1..] }
  predicate Well(s: seq<Answer>) { First(s).ending == Good }

  /** Three good looks at a clean checkout and at main, which is the target. */
  predicate Observes(s: seq<Answer>, clean: bool, target: Sha) {
    Well(s) && Well(Tail(s)) && clean && Well(Tail(Tail(s))) && First(Tail(Tail(s))).remote == target
  }

  /** After them: the fetch, main still the target, HEAD seen below it, and the checkout seen clean again. */
  predicate Confirms(s: seq<Answer>, head: Sha, target: Sha, ancestry: Ancestry) {
    var t := Tail(Tail(s));
    && Well(s) && Well(Tail(s)) && First(Tail(s)).remote == target && Well(t) && head in ancestry(target)
    && Well(Tail(t)) && Well(Tail(Tail(t)))
  }

  function After3(s: seq<Answer>): seq<Answer> { Tail(Tail(Tail(s))) }
  function After8(s: seq<Answer>): seq<Answer> { Tail(Tail(After3(After3(s)))) }

  predicate Calm3(s: seq<Answer>) { Well(s) && Well(Tail(s)) && Well(Tail(Tail(s))) }

  /** Everything a fast-forward needs, up to the merge and its readback. */
  predicate Advances(s: seq<Answer>, head: Sha, clean: bool, target: Sha, ancestry: Ancestry) {
    Observes(s, clean, target) && head != target && Confirms(After3(s), head, target, ancestry) && Calm3(After8(s))
  }

  /** What one more look claims after an error past the merge. */
  function Reconsidered(s: seq<Answer>, observed: Sha, target: Sha, head: Sha, clean: bool): Effect {
    if !Well(s) || !Well(Tail(s)) then Unclear
    else if head == observed && clean then NotSent
    else if head == target && clean then Applied
    else Unclear
  }

  class Checkout {
    const ancestry: Ancestry
    var head: Sha
    var clean: bool
    var script: seq<Answer>

    constructor (ancestry: Ancestry, head: Sha, clean: bool, script: seq<Answer>)
      ensures this.ancestry == ancestry && this.head == head && this.clean == clean && this.script == script
    {
      this.ancestry, this.head, this.clean, this.script := ancestry, head, clean, script;
    }

    /** One git command that only reads. */
    method Ask() returns (a: Answer)
      modifies this`script
      ensures a == First(old(script)) && script == Tail(old(script))
    {
      a := CALM;
      if script != [] { a, script := script[0], script[1..]; }
    }

    /** Configuration, identity and HEAD are checked together; the answer is HEAD. */
    method ReadHead() returns (current: Option<Sha>)
      modifies this`script
      ensures current == (if Well(old(script)) then Some(head) else None) && script == Tail(old(script))
    {
      var a := Ask();
      current := if a.ending == Good then Some(head) else None;
    }

    method ReadClean() returns (seen: Option<bool>)
      modifies this`script
      ensures seen == (if Well(old(script)) then Some(clean) else None) && script == Tail(old(script))
    {
      var a := Ask();
      seen := if a.ending == Good then Some(clean) else None;
    }

    method ReadRemote() returns (main: Option<Sha>)
      modifies this`script
      ensures main == (if Well(old(script)) then Some(First(old(script)).remote) else None)
      ensures script == Tail(old(script))
    {
      var a := Ask();
      main := if a.ending == Good then Some(a.remote) else None;
    }

    /** `merge-base --is-ancestor`: a failing check is no answer; a nonzero exit means no. */
    method IsAncestor(a: Sha, b: Sha) returns (seen: Option<bool>)
      modifies this`script
      ensures seen == Some(true) <==> Well(old(script)) && a in ancestry(b)
      ensures seen == None <==> First(old(script)).ending == Raised
      ensures script == Tail(old(script))
    {
      var reply := Ask();
      seen := if reply.ending == Raised then None else Some(reply.ending == Good && a in ancestry(b));
    }

    /** `merge --ff-only`. Ending badly, it may have moved HEAD or left the tree dirty all the same. */
    method Merge(target: Sha) returns (ending: Ending)
      modifies this
      ensures head == old(head) || (head == target && old(head) in ancestry(target))
      ensures ending == Good <==> Well(old(script)) && old(head) in ancestry(target)
      ensures ending == Good ==> head == target && clean == old(clean)
      ensures var a, able := First(old(script)), old(head) in ancestry(target);
        && ending == (if a.ending == Good && !able then Nonzero else a.ending)
        && head == (if able && (a.ending == Good || a.moved) then target else old(head))
        && clean == (old(clean) && !(ending != Good && a.dirtied))
      ensures script == Tail(old(script))
    {
      var a := Ask();
      var able := head in ancestry(target);
      ending := if a.ending == Good && !able then Nonzero else a.ending;
      if able && (ending == Good || a.moved) { head := target; }
      if ending != Good && a.dirtied { clean := false; }
    }

    /** `_sync_locked`: everything under the lock, with the merge error paths. */
    method SyncLocked(observed: Sha, target: Sha) returns (r: SyncResult)
      requires Lineage(ancestry) && observed == head
      modifies this
      ensures r.target == target && r.previous == Some(old(head))
      ensures Exact(ancestry, r.effect, Some(target), old(head), old(clean), head, clean)
      ensures r.effect == Applied ==> r.resulting == Some(head) && r.status == Done
      ensures r.status == Done ==> r.resulting == Some(target) && head == target && clean
      ensures r.status == Unknown <==> r.effect == Unclear
      ensures r.resulting.Some? ==> r.resulting.value == head
      ensures var s := old(script);
        && (r.status == Done && r.effect == NotSent <==> Observes(s, old(clean), target) && observed == target)
        && (r.effect != NotSent ==>
              Observes(s, old(clean), target) && observed != target && Confirms(After3(s), observed, target, ancestry))
        && (Advances(s, observed, old(clean), target, ancestry) ==> r.effect == Applied)
      ensures var s := old(script); Observes(s, old(clean), target) ==>
        && (observed == target ==> script == After3(s))
        && (observed != target && Confirms(After3(s), observed, target, ancestry) && Calm3(After8(s)) ==>
              script == After3(After8(s)))
    {
      r := Unchanged(observed, target);
      var current := ReadHead();
      if current.None? { return; }
      var tidy := ReadClean();
      if tidy != Some(true) { return; }
      var main := ReadRemote();
      if main != Some(target) { return; }
      if current.value == target { return SyncResult(Done, NotSent, Some(head), target, Some(head)); }
      var fetched := Ask();
      if fetched.ending != Good { return; }
      main := ReadRemote();
      if main != Some(target) { return; }
      var older := IsAncestor(current.value, target);
      if older != Some(true) { return; }
      current := ReadHead();
      if current.None? { return; }
      tidy := ReadClean();
      if tidy != Some(true) { return; }
      r := MergeAndRead(observed, target);
    }

    /** The merge and its readback, once everything before it was confirmed. */
    method MergeAndRead(observed: Sha, target: Sha) returns (r: SyncResult)
      requires Lineage(ancestry) && observed == head && observed != target && clean && observed in ancestry(target)
      modifies this
      ensures r.target == target && r.previous == Some(observed)
      ensures Exact(ancestry, r.effect, Some(target), observed, true, head, clean)
      ensures r.effect == Applied ==> r.resulting == Some(head)
      ensures r.status == Done <==> r.effect == Applied
      ensures r.status == Unknown <==> r.effect == Unclear
      ensures r.resulting.Some? ==> r.resulting.value == head
      ensures Calm3(old(script)) ==> r.effect == Applied && script == After3(old(script))
      ensures var s := old(script); First(s).ending == Nonzero && Well(Tail(s)) && Well(Tail(Tail(s))) ==>
        r.effect == if head == observed && clean then NotSent else Unclear
      ensures var s := old(script);
        && (First(s).ending == Raised ==> r.effect == Reconsidered(Tail(s), observed, target, head, clean))
        && (First(s).ending != Raised && !Well(Tail(s)) ==>
              r.effect == Reconsidered(Tail(Tail(s)), observed, target, head, clean))
        && (First(s).ending != Raised && Well(Tail(s)) && !Well(Tail(Tail(s))) ==>
              r.effect == Reconsidered(After3(s), observed, target, head, clean))
    {
      r := Unchanged(observed, target);
      var merged := Merge(target);
      if merged == Raised {
        r := Reread(observed, target);
        return;
      }
      var resulting := ReadHead();
      var after := None;
      if resulting.Some? { after := ReadClean(); }
      if resulting.None? || after.None? {
        r := Reread(observed, target);
        return;
      }
      if merged == Nonzero {
        if resulting.value == observed && after.value { return; }
        r := SyncResult(Unknown, Unclear, Some(observed), target, resulting);
      } else if resulting.value != target || !after.value {
        r := SyncResult(Unknown, Unclear, Some(observed), target, resulting);
      } else {
        r := SyncResult(Done, Applied, Some(observed), target, resulting);
      }
    }

    /** After an error past the merge: one more look decides, or nothing is claimed. */
    method Reread(observed: Sha, target: Sha) returns (r: SyncResult)
      modifies this`script
      ensures r.target == target && r.previous == Some(observed)
      ensures r.effect == NotSent ==> head == observed && clean && r.status == NotApplied && r.resulting == Some(head)
      ensures r.effect == Applied ==>
                head == target && head != observed && clean && r.status == Done && r.resulting == Some(head)
      ensures r.effect == Unclear <==> r.status == Unknown
      ensures r.resulting.Some? ==> r.resulting.value == head
      ensures r.effect == Reconsidered(old(script), observed, target, head, clean)
    {
      var resulting := ReadHead();
      if resulting.None? { return SyncResult(Unknown, Unclear, Some(observed), target, None); }
      var tidy := ReadClean();
      if tidy.None? { return SyncResult(Unknown, Unclear, Some(observed), target, None); }
      if resulting.value == observed && tidy.value {
        r := Unchanged(observed, target);
      } else if resulting.value == target && tidy.value {
        r := SyncResult(Done, Applied, Some(observed), target, resulting);
      } else {
        r := SyncResult(Unknown, Unclear, Some(observed), target, resulting);
      }
    }

    /** `sync`: takes the locks; a lock that fails to let go changes the status, never the effect. */
    method Sync(target: Sha) returns (r: SyncResult)
      requires Lineage(ancestry)
      modifies this
      ensures r.target == target && Exact(ancestry, r.effect, Some(target), old(head), old(clean), head, clean)
      ensures r.status == Done ==> head == target && clean
      ensures r.effect == Unclear ==> r.status == Unknown
      ensures r.effect == NotSent ==> r.status != Unknown
      ensures r.status == NotApplied ==> r.effect == NotSent
      ensures var s := Tail(Tail(old(script)));
        && (r.effect != NotSent ==>
              Well(old(script)) && Well(Tail(old(script))) && Observes(s, old(clean), target)
              && Confirms(After3(s), old(head), target, ancestry))
        && (Well(old(script)) && Well(Tail(old(script))) && Advances(s, old(head), old(clean), target, ancestry) ==>
              r.effect == Applied && (r.status == Done <==> Well(After3(After8(s)))))
    {
      r := SyncResult(NotApplied, NotSent, None, target, None);
      var locked := Ask();
      if locked.ending != Good { return; }
      var current := ReadHead();
      if current.None? { return; }
      r := SyncLocked(current.value, target);
      var released := Ask();
      if released.ending != Good {
        r := SyncResult(if r.effect != NotSent then Unknown else NotApplied, r.effect, r.previous, target, r.resulting);
      }
    }

    /** `handoff`: synchronize to the observed main and check the generation that is handed over. */
    method HandOver(started: Sha) returns (r: HandoffResult, target: Option<Sha>)
      requires Lineage(ancestry)
      modifies this
      ensures Exact(ancestry, r.effect, target, old(head), old(clean), head, clean)
      ensures r.verdict == Ready ==> r.resulting == Some(head) && started in ancestry(head) && clean
      ensures r.effect == Unclear ==> r.verdict == Unresolved
      ensures r.effect == NotSent ==> r.verdict != Unresolved
      ensures r.resulting.Some? ==> r.resulting.value == head
      ensures r.previous == if Well(old(script)) && Well(Tail(old(script))) then Some(old(head)) else None
      ensures var s := old(script); Well(s) && Well(Tail(s)) && Well(Tail(Tail(s))) ==>
        && (!old(clean) ==> r.resulting == Some(head))
        && (old(clean) && First(After3(s)).ending == Nonzero ==> r.resulting == Some(head))
        && (old(clean) && First(After3(s)).ending == Raised ==> r.resulting == None)
      ensures var s := old(script);
        var t := Tail(Tail(Tail(s)));
        var u, m := Tail(Tail(t)), First(Tail(t)).remote;
        var begun := Well(s) && Well(Tail(s)) && Well(Tail(Tail(s))) && old(clean) && Well(t) && Well(Tail(t));
        && (r.verdict == Ready ==> begun && target == Some(m))
        && (begun && Observes(u, true, m) && old(head) == m ==>
              (r.verdict == Ready <==> Well(After3(u)) && started in ancestry(m) && Well(Tail(After3(u)))))
        && (begun && Advances(u, old(head), true, m, ancestry) ==>
              var v := After3(After8(u));
              && (r.verdict == Ready <==> Well(v) && started in ancestry(m) && Well(Tail(v)))
              && (r.verdict == Unresolved <==> First(v).ending == Raised || !Well(Tail(v))))
    {
      target := None;
      r := HandoffResult(Blocked, NotSent, None, None);
      var locked := Ask();
      if locked.ending != Good { return; }
      var current := ReadHead();
      if current.None? { return; }
      r := HandoffResult(Blocked, NotSent, current, None);
      var tidy := ReadClean();
      if tidy.None? { return; }
      if !tidy.value { return HandoffResult(Blocked, NotSent, current, current), None; }
      var known := Ask();
      if known.ending == Raised { return; }
      if known.ending == Nonzero { return HandoffResult(Blocked, NotSent, current, current), None; }
      var main := ReadRemote();
      if main.None? { return; }
      target := main;
      var synced := SyncLocked(current.value, main.value);
      if synced.status != Done {
        r := HandoffResult(if synced.status == Unknown then Unresolved else Blocked,
                           synced.effect, synced.previous, synced.resulting);
      } else {
        var older := IsAncestor(started, synced.resulting.value);
        if older.None? {
          r := HandoffResult(if synced.effect != NotSent then Unresolved else Blocked,
                             synced.effect, current, synced.resulting);
          return;
        }
        r := HandoffResult(if older.value then Ready else Blocked, synced.effect, synced.previous, synced.resulting);
      }
      var released := Ask();
      if released.ending != Good {
        r := HandoffResult(if r.effect != NotSent then Unresolved else Blocked, r.effect, current, synced.resulting);
      }
    }

    /** Any run of syncs and handoffs: HEAD only ever moves to descendants. */
    method Serve(calls: seq<Call>)
      requires Lineage(ancestry)
      modifies this
      ensures old(head) in ancestry(head)
    {
      for i := 0 to |calls|
        invariant old(head) in ancestry(head)
      {
        match calls[i]
        case SyncTo(target) => var _ := Sync(target);
        case HandoffFrom(started) => var _, _ := HandOver(started);
      }
    }
  }

  datatype Call = SyncTo(target: Sha) | HandoffFrom(started: Sha)
}
