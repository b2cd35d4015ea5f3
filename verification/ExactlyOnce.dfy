/** Exactly-once execution over every run, every crash pattern and every interference. */
module ExactlyOnce {
  import opened Options
  import opened Workflow
  import opened Durable

  /** The tool really acted under this key. */
  predicate PerformedUnder(f: Fact, key: string) { f.ToolCalled? && f.key == key && f.performed }

  /** ... and the process died between acting and writing the ledger. */
  predicate LostUnder(f: Fact, key: string) { PerformedUnder(f, key) && !f.recorded }

  function Performances(h: seq<Fact>, key: string): nat { Count(h, (f: Fact) => PerformedUnder(f, key)) }

  function Losses(h: seq<Fact>, key: string): nat { Count(h, (f: Fact) => LostUnder(f, key)) }

  /** The tool call among the facts of one step, if any. */
  ghost predicate CallAdded(s: Sys, t: Sys, f: Fact) {
    && f.ToolCalled?
    && s.checkpoint.next == Execute && s.checkpoint.state.key == Some(f.key)
    && s.checkpoint.state.action == Some(f.action)
    && (f.performed <==> f.key !in s.ledger)
    && (f.recorded ==> f.key in t.ledger && t.ledger[f.key] == f.entry)
    && (!f.performed ==> f.entry == s.ledger[f.key] && t.world == s.world)
    && (!f.recorded ==> t.ledger == s.ledger)
  }

  /** What `StepCalls` says about one step from `s` to `t` adding the facts `g`. */
  ghost predicate Adds(s: Sys, t: Sys, g: seq<Fact>) {
    && t.history == s.history + g
    && |g| <= 2
    && (forall k | k in s.ledger :: k in t.ledger && t.ledger[k] == s.ledger[k])
    && (|g| == 2 ==> CallAdded(s, t, g[0]) && !g[1].ToolCalled?)
    && (|g| == 1 ==> !g[0].ToolCalled?)
    && (|g| > 0 && g[|g| - 1].Committed? && g[|g| - 1].node == Execute ==>
          && |g| == 2 && g[0].recorded
          && g[1].before == s.checkpoint.state
          && g[1].after.result == Some(g[0].entry.result)
          && g[1].after.compensation == Some(g[0].entry.compensation))
  }

  lemma StepCalls(revalidating: bool, s: Sys, e: Event)
    ensures Adds(s, Step(revalidating, s, e), Added(revalidating, s, e))
  {
    if e.NodeRun? && s.checkpoint.next == Execute {
      ExecuteCalls(revalidating, s, e);
    } else {
      OthersCallNothing(revalidating, s, e);
    }
  }

  lemma ExecuteCalls(revalidating: bool, s: Sys, e: Event)
    requires e.NodeRun? && s.checkpoint.next == Execute
    ensures Adds(s, Step(revalidating, s, e), Added(revalidating, s, e))
  {
  }

  lemma OthersCallNothing(revalidating: bool, s: Sys, e: Event)
    requires e.NodeRun? ==> s.checkpoint.next != Execute
    ensures Adds(s, Step(revalidating, s, e), Added(revalidating, s, e))
  {
    if e.NodeRun? && s.checkpoint.next != End {
      var body := RunBody(s.checkpoint, s.world, s.ledger, e.oracle);
      if body.Some? {
        ReadOnlyBody(s.checkpoint, s.world, s.ledger, e.oracle);
      }
      QuietBodyCallsNothing(revalidating, s, body, e.crash, e.timestamp);
    }
  }

  lemma QuietBodyCallsNothing(revalidating: bool, s: Sys, body: Option<Body>, crash: Crash, timestamp: int)
    requires s.checkpoint.next != Execute
    requires body.Some? ==> body.value.call.None? && body.value.ledger == s.ledger
    ensures Adds(s, AfterBody(revalidating, s, body, crash, timestamp), FactsOf(s.checkpoint, body, crash))
  {
  }

  // ---- Exactly when a key acts at most once. ----

  lemma CountFew(h: seq<Fact>, g: seq<Fact>, p: Fact -> bool)
    requires |g| <= 2
    ensures Count(h + g, p) == Count(h, p) + (if |g| > 0 && p(g[0]) then 1 else 0)
      + (if |g| > 1 && p(g[1]) then 1 else 0)
  {
    if |g| == 2 {
      assert h + g == h + [g[0]] + [g[1]];
      CountOne(h, g[0], p);
      CountOne(h + [g[0]], g[1], p);
    } else if |g| == 1 {
      assert g == [g[0]];
      CountOne(h, g[0], p);
    } else {
      assert h + g == h;
    }
  }

  /** A call of this run under `key` acted and reached the ledger. */
  ghost predicate RecordedHere(h: seq<Fact>, key: string) {
    exists f :: f in h && PerformedUnder(f, key) && f.recorded
  }

  ghost predicate Counted(s: Sys, key: string) {
    && Performances(s.history, key) == Losses(s.history, key) + (if RecordedHere(s.history, key) then 1 else 0)
    && (RecordedHere(s.history, key) ==> key in s.ledger)
  }

  lemma AddsKeepsCounted(s: Sys, t: Sys, g: seq<Fact>, key: string)
    requires Counted(s, key) && Adds(s, t, g)
    ensures Counted(t, key)
  {
    CountFew(s.history, g, (f: Fact) => PerformedUnder(f, key));
    CountFew(s.history, g, (f: Fact) => LostUnder(f, key));
    assert forall f :: f in t.history <==> f in s.history || f in g;
    if |g| == 2 {
      assert g == [g[0], g[1]];
    } else if |g| == 1 {
      assert g == [g[0]];
    }
  }

  lemma {:induction false} RunKeepsCounted(revalidating: bool, s: Sys, events: seq<Event>, key: string)
    requires Counted(s, key)
    ensures Counted(Run(revalidating, s, events), key)
  {
    if events != [] {
      var n := |events| - 1;
      RunKeepsCounted(revalidating, s, events[..n], key);
      var m := Run(revalidating, s, events[..n]);
      StepCalls(revalidating, m, events[n]);
      AddsKeepsCounted(m, Step(revalidating, m, events[n]), Added(revalidating, m, events[n]), key);
    }
  }

  /** Nobody else writes the ledger under `key`. */
  ghost predicate KeyIsOurs(events: seq<Event>, key: string) {
    forall e | e in events :: e.Elsewhere? ==> key !in e.entries
  }

  /** A key enters the ledger by a call that acted, or by somebody else. */
  lemma NewKeyWasPerformed(revalidating: bool, s: Sys, e: Event, key: string)
    requires key !in s.ledger && key in Step(revalidating, s, e).ledger
    requires e.Elsewhere? ==> key !in e.entries
    ensures var g := Added(revalidating, s, e); |g| == 2 && PerformedUnder(g[0], key) && g[0].recorded
  {
    var body := RunBody(s.checkpoint, s.world, s.ledger, e.oracle);
    if s.checkpoint.next != Execute {
      ReadOnlyBody(s.checkpoint, s.world, s.ledger, e.oracle);
    }
    BodyAdds(revalidating, s, body, e.crash, e.timestamp);
  }

  lemma {:induction false} RecordedExactly(revalidating: bool, s: Sys, events: seq<Event>, key: string)
    requires key !in s.ledger && KeyIsOurs(events, key)
    ensures var t := Run(revalidating, s, events); key in t.ledger ==> RecordedHere(t.history, key)
  {
    if events != [] {
      var n := |events| - 1;
      assert events[n] in events && forall e | e in events[..n] :: e in events;
      RecordedExactly(revalidating, s, events[..n], key);
      var m := Run(revalidating, s, events[..n]);
      var t, g := Step(revalidating, m, events[n]), Added(revalidating, m, events[n]);
      assert t.history == m.history + g;
      if key in m.ledger {
        assert forall f | f in m.history :: f in t.history;
      } else if key in t.ledger {
        NewKeyWasPerformed(revalidating, m, events[n], key);
        assert g[0] in t.history;
      }
    }
  }

  /** Only a death before the ledger write loses a call. */
  lemma {:induction false} SurvivorsLoseNothing(revalidating: bool, s: Sys, events: seq<Event>, key: string)
    requires forall e | e in events :: e.NodeRun? ==> e.crash != BeforeLedger
    ensures Losses(Run(revalidating, s, events).history, key) == Losses(s.history, key)
  {
    if events != [] {
      var n := |events| - 1;
      assert events[n] in events && forall e | e in events[..n] :: e in events;
      SurvivorsLoseNothing(revalidating, s, events[..n], key);
      var m := Run(revalidating, s, events[..n]);
      StepCalls(revalidating, m, events[n]);
      CountFew(m.history, Added(revalidating, m, events[n]), (f: Fact) => LostUnder(f, key));
    }
  }

  /** Exactly how often a key acts, and exactly when at most once. Whatever a run meets, its tools act under one key
      once for every death between acting and the ledger write, and once more if one of its calls under the key
      was recorded; so they act at most once exactly if there was no such death, or one that was never made
      good by a recorded call. Where nobody else uses the key, recorded means: the key is in the ledger. */
  lemma AtMostOnceExactly(revalidating: bool, runId: string, s: Sys, events: seq<Event>, key: string)
    requires Fresh(s, runId)
    ensures var t := Run(revalidating, s, events);
      var acted, lost, recorded := Performances(t.history, key), Losses(t.history, key), RecordedHere(t.history, key);
      && acted == lost + (if recorded then 1 else 0)
      && (acted <= 1 <==> lost == 0 || (lost == 1 && !recorded))
      && (key !in s.ledger && KeyIsOurs(events, key) ==> (recorded <==> key in t.ledger))
  {
    RunKeepsCounted(revalidating, s, events, key);
    if key !in s.ledger && KeyIsOurs(events, key) {
      RecordedExactly(revalidating, s, events, key);
    }
  }

  // ---- Later calls return the first recorded entry. ----

  ghost predicate InLedger(s: Sys) {
    forall i :: 0 <= i < |s.history| && s.history[i].ToolCalled? && s.history[i].recorded ==>
      s.history[i].key in s.ledger && s.ledger[s.history[i].key] == s.history[i].entry
  }

  ghost predicate Replays(h: seq<Fact>) {
    forall i, j :: 0 <= i < j < |h| && h[i].ToolCalled? && h[i].recorded && h[j].ToolCalled? && h[j].key == h[i].key ==>
      !h[j].performed && h[j].entry == h[i].entry
  }

  /** Every committed `execute` put the entry of its own call, just before it, into the channels. */
  ghost predicate ResultsFromCalls(h: seq<Fact>) {
    forall i :: 0 <= i < |h| && h[i].Committed? && h[i].node == Execute ==> ResultAt(h, i)
  }

  ghost predicate ResultAt(h: seq<Fact>, i: int)
    requires 0 <= i < |h|
  {
    && h[i].Committed? && i > 0 && h[i - 1].ToolCalled? && h[i - 1].recorded
    && h[i].before.key == Some(h[i - 1].key)
    && h[i].after.result == Some(h[i - 1].entry.result)
    && h[i].after.compensation == Some(h[i - 1].entry.compensation)
  }

  ghost predicate FirstWins(s: Sys) { InLedger(s) && Replays(s.history) && ResultsFromCalls(s.history) }

  lemma StepFirstWins(s: Sys, t: Sys, g: seq<Fact>)
    requires FirstWins(s) && Adds(s, t, g)
    ensures FirstWins(t)
  {
    StepInLedger(s, t, g);
    StepReplays(s, t, g);
    StepResults(s, t, g);
  }

  lemma StepInLedger(s: Sys, t: Sys, g: seq<Fact>)
    requires InLedger(s) && Adds(s, t, g)
    ensures InLedger(t)
  {
    forall i | 0 <= i < |t.history| && t.history[i].ToolCalled? && t.history[i].recorded
      ensures t.history[i].key in t.ledger && t.ledger[t.history[i].key] == t.history[i].entry
    {
      if i < |s.history| {
        assert t.history[i] == s.history[i];
      } else {
        assert t.history[i] == g[i - |s.history|];
      }
    }
  }

  lemma StepReplays(s: Sys, t: Sys, g: seq<Fact>)
    requires InLedger(s) && Replays(s.history) && Adds(s, t, g)
    ensures Replays(t.history)
  {
    var n := |s.history|;
    forall i, j | 0 <= i < j < |t.history| && t.history[i].ToolCalled? && t.history[i].recorded
               && t.history[j].ToolCalled? && t.history[j].key == t.history[i].key
      ensures !t.history[j].performed && t.history[j].entry == t.history[i].entry
    {
      if j < n {
        assert t.history[i] == s.history[i] && t.history[j] == s.history[j];
      } else {
        assert t.history[j] == g[j - n] && j == n;
        assert t.history[i] == s.history[i];
      }
    }
  }

  lemma StepResults(s: Sys, t: Sys, g: seq<Fact>)
    requires ResultsFromCalls(s.history) && Adds(s, t, g)
    ensures ResultsFromCalls(t.history)
  {
    var n := |s.history|;
    forall i | 0 <= i < |t.history| && t.history[i].Committed? && t.history[i].node == Execute
      ensures ResultAt(t.history, i)
    {
      if i < n {
        assert t.history[i] == s.history[i] && ResultAt(s.history, i) && t.history[i - 1] == s.history[i - 1];
      } else {
        assert t.history[i] == g[i - n] && i == n + 1 && t.history[n] == g[0];
      }
    }
  }

  lemma {:induction false} RunFirstWins(revalidating: bool, s: Sys, events: seq<Event>)
    requires FirstWins(s)
    ensures FirstWins(Run(revalidating, s, events))
  {
    if events != [] {
      var n := |events| - 1;
      RunFirstWins(revalidating, s, events[..n]);
      var m := Run(revalidating, s, events[..n]);
      StepCalls(revalidating, m, events[n]);
      StepFirstWins(m, Step(revalidating, m, events[n]), Added(revalidating, m, events[n]));
    }
  }

  /** Exactly once: whatever crashes, restarts and interference a run meets, the tools act under one
      key at most 1 + k times, where k counts the deaths between acting and writing the ledger (exactly k times
      while the key is not in the ledger; see `AtMostOnceExactly`); and once a call under a key is recorded,
      every later call under it acts on nothing and returns that first entry, which is what the
      committed `execute` puts into the channels. */
  lemma ExactlyOnceUnderCrashes(revalidating: bool, runId: string, s: Sys, events: seq<Event>, key: string)
    requires Fresh(s, runId)
    ensures var t := Run(revalidating, s, events);
      && Losses(t.history, key) <= Performances(t.history, key) <= 1 + Losses(t.history, key)
      && (key !in t.ledger ==> Performances(t.history, key) == Losses(t.history, key))
      && Replays(t.history)
      && ResultsFromCalls(t.history)
  {
    RunKeepsCounted(revalidating, s, events, key);
    RunFirstWins(revalidating, s, events);
  }

  /** `execute` changes the world or the ledger only by a call that performed. */
  lemma OnlyPerformedCallsAct(revalidating: bool, s: Sys, e: Event)
    requires e.NodeRun? && s.checkpoint.next == Execute
    ensures var t, g := Step(revalidating, s, e), Added(revalidating, s, e);
      t.world != s.world || t.ledger != s.ledger ==>
        |g| == 2 && PerformedUnder(g[0], s.checkpoint.state.key.value)
  {
    StepCalls(revalidating, s, e);
  }
}
