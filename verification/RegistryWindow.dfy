/** Spacing of leaders: with one window for all requests and a clock that does not run back, a key
    gets a new leader only after the window, unless its entry was completed as not cacheable or
    failed. */
module RegistryWindow {
  import opened Text
  import opened InFlightRegistry
  import opened RegistryRuns

  /** The time of the last grant for a key. */
  function LastGrant(log: seq<Event>, key: string): Option<nat> {
    if log == [] then None
    else
      var e := log[|log| - 1];
      if e.Granted? && e.key == key then Some(e.time) else LastGrant(log[..|log| - 1], key)
  }

  /** Since its last grant the key was completed as not cacheable or failed. */
  predicate SoftSince(log: seq<Event>, key: string) {
    log != [] &&
    var e := log[|log| - 1];
    if e.Granted? && e.key == key then false
    else (e.Softened? && e.key == key) || SoftSince(log[..|log| - 1], key)
  }

  predicate Concerns(e: Event, key: string) {
    (e.Granted? && e.key == key) || (e.Softened? && e.key == key)
  }

  lemma {:induction false} OtherEvents(log: seq<Event>, events: seq<Event>, key: string)
    requires forall n :: 0 <= n < |events| ==> !Concerns(events[n], key)
    ensures LastGrant(log + events, key) == LastGrant(log, key)
    ensures SoftSince(log + events, key) == SoftSince(log, key)
  {
    if events == [] {
      assert log + events == log;
    } else {
      var n := |events| - 1;
      OtherEvents(log, events[..n], key);
      assert (log + events)[..|log| + n] == log + events[..n];
      assert !Concerns(events[n], key);
    }
  }

  predicate Soft(e: Entry) { IsSoft(e.state) }

  /** What an active entry says about the history of its key. */
  ghost predicate EntryTimes(e: Entry, log: seq<Event>, clock: nat) {
    && e.created <= clock
    && (IsTerminal(e.state) ==> e.created <= e.completed)
    && LastGrant(log, e.key) == Some(e.created)
    && (Soft(e) ==> SoftSince(log, e.key))
  }

  /** A key without an active entry has seen its last window pass. */
  ghost predicate IdleTimes(slots: seq<Entry>, hash: Hash, log: seq<Event>, clock: nat, window: nat, key: string)
    requires |slots| == CAPACITY
  {
    Find(slots, hash, key).None? && LastGrant(log, key).Some? ==> clock >= LastGrant(log, key).value + window
  }

  ghost predicate TimesOk(hash: Hash, w: World, window: nat)
    requires |w.slots| == CAPACITY
  {
    && (forall j :: 0 <= j < CAPACITY && w.slots[j].active ==> EntryTimes(w.slots[j], w.log, w.clock))
    && (forall key :: IdleTimes(w.slots, hash, w.log, w.clock, window, key))
  }

  predicate Timed(op: Op) { op.Request? || op.Finish? || op.FinishFor? || op.Respond? }

  /** The step respects the clock and the common window. */
  predicate Regular(clock: nat, op: Op, window: nat) {
    (Timed(op) ==> op.now >= clock) && (op.Request? ==> op.window == window)
  }

  ghost predicate RegularRun(hash: Hash, ops: seq<Op>, window: nat) {
    forall n :: 0 <= n < |ops| ==> Regular(Run(hash, ops[..n]).clock, ops[n], window)
  }

  /** A grant comes a window after the last one, or after a soft completion. */
  predicate GrantSpaced(log: seq<Event>, key: string, now: nat, window: nat) {
    LastGrant(log, key).Some? && !SoftSince(log, key) ==> now >= LastGrant(log, key).value + window
  }

  lemma LeaderIsSpaced(hash: Hash, w: World, op: Op, window: nat)
    requires Inv(hash, w) && TimesOk(hash, w, window) && op.Request? && Regular(w.clock, op, window)
    requires Register(w.slots, hash, op.key, op.now, op.window, op.cap).1.role.Leader?
    ensures GrantSpaced(w.log, op.key, op.now, window)
  {
    RegisterLeads(hash, w.slots, op.key, op.now, op.window, op.cap);
    assert IdleTimes(w.slots, hash, w.log, w.clock, window, op.key);
  }

  lemma GrantTimes(hash: Hash, w: World, op: Op, window: nat)
    requires Inv(hash, w) && TimesOk(hash, w, window) && op.Request? && Regular(w.clock, op, window)
    requires Register(w.slots, hash, op.key, op.now, op.window, op.cap).1.role.Leader?
    ensures TimesOk(hash, Exec(hash, w, op), window)
  {
    var w' := Exec(hash, w, op);
    RegisterLeads(hash, w.slots, op.key, op.now, op.window, op.cap);
    var t := w'.slots;
    var j := Find(t, hash, op.key).value;
    var event := Granted(j, t[j].generation, op.key, op.now);
    assert w'.log == w.log + [event];
    assert w'.log[..|w.log|] == w.log;
    forall i | 0 <= i < CAPACITY && t[i].active ensures EntryTimes(t[i], w'.log, w'.clock) {
      if i != j {
        assert t[i] == w.slots[i];
        assert t[i].key != op.key;
        OtherEvents(w.log, [event], t[i].key);
      }
    }
    forall key ensures IdleTimes(t, hash, w'.log, w'.clock, window, key) {
      if key != op.key {
        OtherEvents(w.log, [event], key);
        GrantIdle(hash, w, t, j, op, window, key);
      }
    }
  }

  /** A key that loses its slot to a grant for another key has seen its window pass. */
  lemma GrantIdle(hash: Hash, w: World, t: seq<Entry>, j: nat, op: Op, window: nat, key: string)
    requires Inv(hash, w) && TimesOk(hash, w, window) && op.Request? && Regular(w.clock, op, window)
    requires SlotsOk(hash, t) && j < CAPACITY && t == w.slots[j := t[j]] && key != op.key
    requires t[j].key == op.key && t[j].active
    requires Holds(w.slots[j], op.key) || Reusable(w.slots[j], op.now, window)
    ensures IdleTimes(t, hash, w.log, op.now, window, key)
  {
    assert IdleTimes(w.slots, hash, w.log, w.clock, window, key);
    if Find(t, hash, key).None? {
      var before := Find(w.slots, hash, key);
      if before.Some? && before.value != j {
        FindUnique(hash, t, key, before.value);
      } else if before.Some? {
        assert EntryTimes(w.slots[j], w.log, w.clock);
      }
    }
  }

  /** Any other change keeps every slot's key and creation time. */
  ghost predicate SameLives(slots: seq<Entry>, t: seq<Entry>) {
    && |slots| == |t| == CAPACITY
    && forall j :: 0 <= j < CAPACITY ==> KeepsLife(slots[j], t[j]) && t[j].created == slots[j].created
  }

  lemma SameLivesFind(hash: Hash, slots: seq<Entry>, t: seq<Entry>, key: string)
    requires SlotsOk(hash, slots) && SameLives(slots, t)
    ensures SlotsOk(hash, t) && Find(t, hash, key) == Find(slots, hash, key)
  {
    assert SlotsOk(hash, t);
    var f := Find(slots, hash, key);
    if f.Some? {
      assert Holds(t[f.value], key);
      FindUnique(hash, t, key, f.value);
    } else {
      FindNone(hash, slots, key);
      assert forall j :: 0 <= j < CAPACITY ==> Holds(t[j], key) == Holds(slots[j], key);
    }
  }

  /** A change within lives, with the soft completions it logs. */
  lemma CompletionTimes(hash: Hash, w: World, t: seq<Entry>, key: string, now: nat, events: seq<Event>, window: nat)
    requires Inv(hash, w) && TimesOk(hash, w, window) && now >= w.clock && SameLives(w.slots, t)
    requires forall n :: 0 <= n < |events| ==> !events[n].Granted? && (events[n].Softened? ==> events[n].key == key)
    requires forall j :: 0 <= j < CAPACITY && t[j].active ==>
               || (t[j].state == w.slots[j].state && t[j].completed == w.slots[j].completed)
               || (t[j].completed == now && t[j].key == key && (Soft(t[j]) ==> SoftSince(w.log + events, key)))
    ensures TimesOk(hash, w.(slots := t, clock := now, log := w.log + events), window)
  {
    var log := w.log + events;
    forall j | 0 <= j < CAPACITY && t[j].active ensures EntryTimes(t[j], log, now) {
      assert EntryTimes(w.slots[j], w.log, w.clock);
      NoGrantEvents(w.log, events, t[j].key);
    }
    forall k ensures IdleTimes(t, hash, log, now, window, k) {
      assert IdleTimes(w.slots, hash, w.log, w.clock, window, k);
      SameLivesFind(hash, w.slots, t, k);
      NoGrantEvents(w.log, events, k);
    }
  }

  lemma {:induction false} NoGrantEvents(log: seq<Event>, events: seq<Event>, key: string)
    requires forall n :: 0 <= n < |events| ==> !events[n].Granted?
    ensures LastGrant(log + events, key) == LastGrant(log, key)
    ensures SoftSince(log, key) ==> SoftSince(log + events, key)
  {
    if events == [] {
      assert log + events == log;
    } else {
      var n := |events| - 1;
      NoGrantEvents(log, events[..n], key);
      assert (log + events)[..|log| + n] == log + events[..n];
    }
  }

  lemma SoftenedNow(log: seq<Event>, key: string)
    ensures SoftSince(log + [Softened(key)], key)
  {}

  lemma StateTimes(hash: Hash, w: World, op: Op, window: nat)
    requires Inv(hash, w) && TimesOk(hash, w, window) && Regular(w.clock, op, window) && (op.Finish? || op.FinishFor?)
    ensures TimesOk(hash, Exec(hash, w, op), window)
  {
    var r := if op.Finish? then CompleteState(w.slots, hash, op.key, op.state, op.now)
             else CompleteIfGeneration(w.slots, hash, op.key, op.generation, op.state, op.now);
    SoftenedNow(w.log, op.key);
    CompletionTimes(hash, w, r.0, op.key, op.now, Softening(r.1, op.key, op.state), window);
  }

  lemma RespondTimes(hash: Hash, w: World, op: Op, window: nat)
    requires Inv(hash, w) && TimesOk(hash, w, window) && Regular(w.clock, op, window) && op.Respond?
    ensures TimesOk(hash, Exec(hash, w, op), window)
  {
    SoftenedNow(w.log, op.key);
    CompletionTimes(hash, w, CompleteWithResponse(w.slots, hash, op.key, op.response, op.now).0, op.key, op.now,
                    RespondEvents(hash, w.slots, op.key, op.response), window);
  }

  lemma FollowTimes(hash: Hash, w: World, op: Op, window: nat)
    requires Inv(hash, w) && TimesOk(hash, w, window) && op.Request? && Regular(w.clock, op, window)
    requires !Register(w.slots, hash, op.key, op.now, op.window, op.cap).1.role.Leader?
    ensures TimesOk(hash, Exec(hash, w, op), window)
  {
    RegisterFollows(hash, w.slots, op.key, op.now, op.window, op.cap);
    var w' := Exec(hash, w, op);
    var events := w'.log[|w.log|..];
    assert w'.log == w.log + events;
    CompletionTimes(hash, w, w'.slots, op.key, op.now, events, window);
  }

  lemma QuitTimes(hash: Hash, w: World, op: Op, window: nat)
    requires Inv(hash, w) && TimesOk(hash, w, window) && op.Quit?
    ensures TimesOk(hash, Exec(hash, w, op), window)
  {
    var w' := Exec(hash, w, op);
    var events := w'.log[|w.log|..];
    assert w'.log == w.log + events;
    CompletionTimes(hash, w, w'.slots, "", w.clock, events, window);
  }

  lemma ExecTimes(hash: Hash, w: World, op: Op, window: nat)
    requires Inv(hash, w) && TimesOk(hash, w, window) && Regular(w.clock, op, window)
    ensures TimesOk(hash, Exec(hash, w, op), window)
  {
    match op
    case Request(_, _, _, _) =>
      if Register(w.slots, hash, op.key, op.now, op.window, op.cap).1.role.Leader? {
        GrantTimes(hash, w, op, window);
      } else {
        FollowTimes(hash, w, op, window);
      }
    case Finish(_, _, _) => StateTimes(hash, w, op, window);
    case FinishFor(_, _, _, _) => StateTimes(hash, w, op, window);
    case Respond(_, _, _) => RespondTimes(hash, w, op, window);
    case Quit(_) => QuitTimes(hash, w, op, window);
    case _ =>
  }

  lemma StartTimes(hash: Hash, window: nat)
    ensures TimesOk(hash, Start(), window)
  {}

  lemma RegularPrefix(hash: Hash, ops: seq<Op>, window: nat)
    requires RegularRun(hash, ops, window) && ops != []
    ensures RegularRun(hash, ops[..|ops| - 1], window)
    ensures Regular(Run(hash, ops[..|ops| - 1]).clock, ops[|ops| - 1], window)
  {
    var m := |ops| - 1;
    forall n | 0 <= n < m ensures Regular(Run(hash, ops[..m][..n]).clock, ops[..m][n], window) {
      assert ops[..m][..n] == ops[..n];
    }
  }

  lemma {:induction false} RunTimes(hash: Hash, ops: seq<Op>, window: nat)
    requires RegularRun(hash, ops, window)
    ensures TimesOk(hash, Run(hash, ops), window)
  {
    if ops == [] {
      StartTimes(hash, window);
    } else {
      var n := |ops| - 1;
      RegularPrefix(hash, ops, window);
      RunKeeps(hash, ops[..n]);
      RunTimes(hash, ops[..n], window);
      ExecTimes(hash, Run(hash, ops[..n]), ops[n], window);
    }
  }

  // ---- Consecutive leaders ----

  /** Positions p and q of the log are consecutive grants of one key with no soft completion
      of that key in between. */
  ghost predicate Consecutive(log: seq<Event>, p: nat, q: nat) {
    && p < q < |log| && log[p].Granted? && log[q].Granted? && log[p].key == log[q].key
    && forall n :: p < n < q ==> !Concerns(log[n], log[p].key)
  }

  ghost predicate AllSpaced(log: seq<Event>, window: nat) {
    forall p: nat, q: nat :: Consecutive(log, p, q) ==> log[q].time >= log[p].time + window
  }

  lemma LastGrantAt(log: seq<Event>, p: nat)
    requires p < |log| && log[p].Granted? && forall n :: p < n < |log| ==> !Concerns(log[n], log[p].key)
    ensures LastGrant(log, log[p].key) == Some(log[p].time) && !SoftSince(log, log[p].key)
  {
    var head := log[..p + 1];
    assert head[..p] == log[..p];
    assert log == head + log[p + 1..];
    OtherEvents(head, log[p + 1..], log[p].key);
  }

  lemma ExecSpaced(hash: Hash, w: World, op: Op, window: nat)
    requires Inv(hash, w) && TimesOk(hash, w, window) && Regular(w.clock, op, window) && AllSpaced(w.log, window)
    ensures AllSpaced(Exec(hash, w, op).log, window)
  {
    var log := Exec(hash, w, op).log;
    assert w.log <= log;
    forall p: nat, q: nat | Consecutive(log, p, q) ensures log[q].time >= log[p].time + window {
      if q < |w.log| {
        assert Consecutive(w.log, p, q);
      } else {
        RegisterLeadsOnly(hash, w, op, q);
        LeaderIsSpaced(hash, w, op, window);
        assert log[p] == w.log[p];
        forall n | p < n < |w.log| ensures !Concerns(w.log[n], w.log[p].key) {
          assert log[n] == w.log[n];
        }
        LastGrantAt(w.log, p);
      }
    }
  }

  /** A grant in the log comes from a request that was made leader, and is the last event. */
  lemma RegisterLeadsOnly(hash: Hash, w: World, op: Op, q: nat)
    requires Inv(hash, w)
    requires var log := Exec(hash, w, op).log; |w.log| <= q < |log| && log[q].Granted?
    ensures op.Request? && Register(w.slots, hash, op.key, op.now, op.window, op.cap).1.role.Leader?
    ensures q == |w.log| && Exec(hash, w, op).log[q].key == op.key && Exec(hash, w, op).log[q].time == op.now
  {}

  lemma {:induction false} RunSpaced(hash: Hash, ops: seq<Op>, window: nat)
    requires RegularRun(hash, ops, window)
    ensures AllSpaced(Run(hash, ops).log, window)
  {
    if ops != [] {
      var n := |ops| - 1;
      RegularPrefix(hash, ops, window);
      RunKeeps(hash, ops[..n]);
      RunTimes(hash, ops[..n], window);
      RunSpaced(hash, ops[..n], window);
      ExecSpaced(hash, Run(hash, ops[..n]), ops[n], window);
    }
  }

  /** Two consecutive leaders of a key are a window apart, unless the key was completed as not
      cacheable or failed in between; also when its slot was reclaimed by another key. */
  lemma LeadersAreSpaced(hash: Hash, ops: seq<Op>, window: nat, p: nat, q: nat)
    requires RegularRun(hash, ops, window) && Consecutive(Run(hash, ops).log, p, q)
    ensures Run(hash, ops).log[q].time >= Run(hash, ops).log[p].time + window
  {
    RunSpaced(hash, ops, window);
  }
}
