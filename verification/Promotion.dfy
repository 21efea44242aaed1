/** `promote.sh`, the CD bumps, ArgoCD's syncs and rollbacks as one state machine. */
module Promotion {
  import opened Aggregates

  datatype Env = Staging | Prod

  datatype Pin = Pin(name: string, tag: string)

  /** What one commit of `main` pins: the bases (dev) and the two overlays. */
  datatype Pins = Pins(dev: Pin, staging: Pin, prod: Pin)

  datatype Live = Live(dev: string, staging: string, prod: string)

  /** The ArgoCD applications. */
  datatype App = DevApp | StagingApp | ProdApp

  /** The operator's clone, the shared repository, what the clusters run, and which
      applications have an automated sync policy. */
  datatype State = State(history: seq<Pins>, origin: seq<Pins>, live: Live, automated: set<App>)

  /** `syncMode` in infra/argocd/envs. */
  const SYNC_MODES: set<App> := {DevApp, StagingApp}

  /** One invocation: its flags, and what the environment does meanwhile. `applied` says
      whether the sync operation rolled the pods; the smoke hook may fail after that. */
  datatype Call = Call(env: Env, sync: bool, dryRun: bool, dirtyIndex: bool, pushReaches: bool,
                       kubectl: bool, applied: bool, phases: seq<string>)

  const SUCCEEDED := "Succeeded"

  predicate Terminal(phase: string) { phase in {SUCCEEDED, "Failed", "Error"} }

  /** The polling loop: stop at the first terminal phase, or keep the last answer. */
  function PollPhase(phases: seq<string>): string {
    if phases == [] then "" else if Terminal(phases[0]) || |phases| == 1 then phases[0] else PollPhase(phases[1..])
  }

  predicate ValidCall(c: Call) { |c.phases| == 60 && (PollPhase(c.phases) == SUCCEEDED ==> c.applied) }

  function Head(h: seq<Pins>): Pins
    requires h != []
  {
    h[|h| - 1]
  }

  function SourcePin(p: Pins, e: Env): Pin { if e == Staging then p.dev else p.staging }

  function TargetPin(p: Pins, e: Env): Pin { if e == Staging then p.staging else p.prod }

  function Repin(p: Pins, e: Env, pin: Pin): Pins { if e == Staging then p.(staging := pin) else p.(prod := pin) }

  predicate ValidState(s: State) { s.history != [] && s.origin != [] }

  /** `git push`: only a fast-forward is accepted. */
  predicate PushAccepted(s: State, history: seq<Pins>, reaches: bool) { reaches && s.origin <= history }

  predicate SourceReadable(s: State, e: Env)
    requires ValidState(s)
  {
    SourcePin(Head(s.history), e).name != "" && SourcePin(Head(s.history), e).tag != ""
  }

  predicate SameTag(s: State, e: Env)
    requires ValidState(s)
  {
    TargetPin(Head(s.history), e).tag == SourcePin(Head(s.history), e).tag
  }

  /** The prod gate: patch the application and wait for the operation. */
  function Gate(s: State, c: Call): (State, int)
    requires ValidState(s)
  {
    if c.env == Staging || !c.sync then (s, 0)
    else if !c.kubectl then (s, 1)
    else
      var s' := if c.applied then s.(live := s.live.(prod := Head(s.origin).prod.tag)) else s;
      (s', if PollPhase(c.phases) == SUCCEEDED then 0 else 1)
  }

  /** The whole script: resulting state and exit code. */
  function Promote(s: State, c: Call): (State, int)
    requires ValidState(s)
  {
    if !SourceReadable(s, c.env) then (s, 1)
    else if SameTag(s, c.env) then Gate(s, c)
    else if c.dirtyIndex then (s, 1)
    else if c.dryRun then (s, 0)
    else
      var p := Head(s.history);
      var committed := s.(history := s.history + [Repin(p, c.env, SourcePin(p, c.env))]);
      if PushAccepted(s, committed.history, c.pushReaches) then Gate(committed.(origin := committed.history), c)
      else (committed, 1)
  }

  // ---- everything else that moves pins or pods -----------------------------------------------

  datatype Event =
    | PromoteLocally(call: Call)
    | PromoteInCi(env: Env)
    | Bump(pin: Pin)
    | Pull
    | Reset
    | Revert(commit: nat, pushReaches: bool)
    | Reconcile(app: App)
    | ManualSync(app: App)

  /** One file under `git revert` of commit `k`: the old value, unless it has changed since. */
  function RevertPin(now: Pin, at: Pin, before: Pin): (Pin, bool) {
    if at == before then (now, false) else if now == at then (before, false) else (now, true)
  }

  function RevertPins(h: seq<Pins>, k: nat): (Pins, bool)
    requires 1 <= k < |h|
  {
    var p := Head(h);
    var (dev, c1) := RevertPin(p.dev, h[k].dev, h[k - 1].dev);
    var (staging, c2) := RevertPin(p.staging, h[k].staging, h[k - 1].staging);
    var (prod, c3) := RevertPin(p.prod, h[k].prod, h[k - 1].prod);
    (Pins(dev, staging, prod), c1 || c2 || c3)
  }

  /** A sync operation outside the script rolls the application to main's pin. */
  function Synced(s: State, app: App): State
    requires ValidState(s)
  {
    match app
    case DevApp => s.(live := s.live.(dev := Head(s.origin).dev.tag))
    case StagingApp => s.(live := s.live.(staging := Head(s.origin).staging.tag))
    case ProdApp => s.(live := s.live.(prod := Head(s.origin).prod.tag))
  }

  function Step(s: State, e: Event): State
    requires ValidState(s)
  {
    match e
    case PromoteLocally(c) => Promote(s, c).0
    case PromoteInCi(env) =>
      // a fresh checkout of main, no cluster access
      var p := Head(s.origin);
      var pin := SourcePin(p, env);
      if pin.name == "" || pin.tag == "" || TargetPin(p, env).tag == pin.tag then s
      else s.(origin := s.origin + [Repin(p, env, pin)])
    case Bump(pin) =>
      if Head(s.origin).dev == pin then s else s.(origin := s.origin + [Head(s.origin).(dev := pin)])
    case Pull => if s.history <= s.origin then s.(history := s.origin) else s
    case Reset => s.(history := s.origin)
    case Revert(k, reaches) =>
      if !(1 <= k < |s.history|) || RevertPins(s.history, k).1 then s
      else
        var committed := s.history + [RevertPins(s.history, k).0];
        s.(history := committed, origin := if PushAccepted(s, committed, reaches) then committed else s.origin)
    case Reconcile(app) => if app in s.automated then Synced(s, app) else s
    case ManualSync(app) => Synced(s, app)
  }

  function RunEvents(s: State, events: seq<Event>): (s': State)
    requires ValidState(s)
    ensures ValidState(s')
  {
    if events == [] then s else Step(RunEvents(s, events[..|events| - 1]), events[|events| - 1])
  }

  // ---- the strict chain ----------------------------------------------------------------------------

  /** The tag was pinned in dev at or before commit `k`. */
  ghost predicate DevedBy(h: seq<Pins>, k: int, tag: string) { exists i :: 0 <= i <= k && i < |h| && h[i].dev.tag == tag }

  /** The tag was pinned in staging at or before commit `k`, and in dev by then. */
  ghost predicate StagedBy(h: seq<Pins>, k: int, tag: string) {
    exists j :: 0 <= j <= k && j < |h| && h[j].staging.tag == tag && DevedBy(h, j, tag)
  }

  /** Commit `k` pins nothing that was not pinned one environment earlier, and whatever it
      changes was pinned there strictly before it. */
  ghost predicate ChainedAt(h: seq<Pins>, k: int)
    requires 0 <= k < |h|
  {
    && StagedBy(h, k, h[k].prod.tag) && DevedBy(h, k, h[k].staging.tag)
    && (k > 0 ==>
          && (h[k].prod == h[k - 1].prod || StagedBy(h, k - 1, h[k].prod.tag))
          && (h[k].staging == h[k - 1].staging || DevedBy(h, k - 1, h[k].staging.tag)))
  }

  ghost predicate Chain(h: seq<Pins>) { h != [] && forall k :: 0 <= k < |h| ==> ChainedAt(h, k) }

  lemma ByLonger(h: seq<Pins>, t: seq<Pins>, k: int, m: int, tag: string)
    requires h <= t && k <= m && k < |h|
    ensures DevedBy(h, k, tag) ==> DevedBy(t, m, tag)
    ensures StagedBy(h, k, tag) ==> StagedBy(t, m, tag)
  {
  }

  /** A commit on top of a chained history that only moves pins one step forward, or back
      to something already chained, keeps the chain. */
  lemma ChainSnoc(h: seq<Pins>, p: Pins)
    requires Chain(h)
    requires p.prod == Head(h).prod || StagedBy(h, |h| - 1, p.prod.tag)
    requires p.staging == Head(h).staging || DevedBy(h, |h| - 1, p.staging.tag)
    ensures Chain(h + [p])
  {
    var t, n := h + [p], |h|;
    assert ChainedAt(h, n - 1);
    forall k | 0 <= k < |t| ensures ChainedAt(t, k) {
      if k < n {
        assert ChainedAt(h, k) && t[k] == h[k];
        ByLonger(h, t, k, k, h[k].prod.tag);
        ByLonger(h, t, k, k, h[k].staging.tag);
        if k > 0 {
          assert t[k - 1] == h[k - 1];
          ByLonger(h, t, k - 1, k - 1, h[k].prod.tag);
          ByLonger(h, t, k - 1, k - 1, h[k].staging.tag);
        }
      } else {
        assert t[n] == p && t[n - 1] == Head(h);
        ByLonger(h, t, n - 1, n - 1, p.prod.tag);
        ByLonger(h, t, n - 1, n, p.prod.tag);
        ByLonger(h, t, n - 1, n - 1, p.staging.tag);
        ByLonger(h, t, n - 1, n, p.staging.tag);
      }
    }
  }

  /** Where a chain starts: one release pinned everywhere. */
  lemma FirstReleaseIsChained(p: Pins)
    requires p.dev.tag == p.staging.tag == p.prod.tag
    ensures Chain([p])
  {
  }

  lemma PromotionChains(h: seq<Pins>, e: Env)
    requires Chain(h)
    ensures Chain(h + [Repin(Head(h), e, SourcePin(Head(h), e))])
  {
    var p := Head(h);
    assert ChainedAt(h, |h| - 1);
    if e == Staging { assert DevedBy(h, |h| - 1, p.dev.tag); } else { assert StagedBy(h, |h| - 1, p.staging.tag); }
    ChainSnoc(h, Repin(p, e, SourcePin(p, e)));
  }

  /** Rolling back only returns to pins that were chained when they were current. */
  lemma RevertChains(h: seq<Pins>, k: nat)
    requires Chain(h) && 1 <= k < |h|
    ensures Chain(h + [RevertPins(h, k).0])
  {
    assert ChainedAt(h, k - 1);
    ByLonger(h, h, k - 1, |h| - 1, h[k - 1].prod.tag);
    ByLonger(h, h, k - 1, |h| - 1, h[k - 1].staging.tag);
    ChainSnoc(h, RevertPins(h, k).0);
  }

  lemma StepKeepsChain(s: State, e: Event)
    requires ValidState(s) && Chain(s.history) && Chain(s.origin)
    ensures Chain(Step(s, e).history) && Chain(Step(s, e).origin)
    ensures s.origin <= Step(s, e).origin
  {
    match e
    case PromoteLocally(c) => PromotionChains(s.history, c.env);
    case PromoteInCi(env) => PromotionChains(s.origin, env);
    case Bump(pin) => ChainSnoc(s.origin, Head(s.origin).(dev := pin));
    case Revert(k, _) => if 1 <= k < |s.history| { RevertChains(s.history, k); }
    case _ =>
  }

  /** Over every run of bumps, promotions, dry runs, syncs, pulls and reverts: each tag
      ever pinned in prod was pinned in staging before, and in dev before that. */
  lemma {:induction false} StrictChain(s: State, events: seq<Event>)
    requires ValidState(s) && Chain(s.history) && Chain(s.origin)
    ensures Chain(RunEvents(s, events).history) && Chain(RunEvents(s, events).origin)
    ensures s.origin <= RunEvents(s, events).origin
  {
    if events != [] {
      var init := events[..|events| - 1];
      StrictChain(s, init);
      StepKeepsChain(RunEvents(s, init), events[|events| - 1]);
    }
  }

  /** From a repository with one release everywhere: whatever happens, each tag ever pinned
      in prod on main was pinned in staging by then, and in dev by that time. */
  lemma EveryProdTagWasStaged(p: Pins, live: Live, events: seq<Event>, k: nat)
    requires p.dev.tag == p.staging.tag == p.prod.tag
    requires k < |RunEvents(State([p], [p], live, SYNC_MODES), events).origin|
    ensures var main := RunEvents(State([p], [p], live, SYNC_MODES), events).origin; StagedBy(main, k, main[k].prod.tag)
  {
    FirstReleaseIsChained(p);
    StrictChain(State([p], [p], live, SYNC_MODES), events);
    assert ChainedAt(RunEvents(State([p], [p], live, SYNC_MODES), events).origin, k);
  }

  // ---- what runs in prod -----------------------------------------------------------------------------

  ghost predicate PinnedInProd(h: seq<Pins>, tag: string) { exists k :: 0 <= k < |h| && h[k].prod.tag == tag }

  /** The call gets as far as the gate, and the sync rolls the pods. */
  predicate OpensGate(s: State, e: Event)
    requires ValidState(s)
  {
    && e.PromoteLocally? && e.call.env == Prod && e.call.sync && e.call.kubectl && e.call.applied
    && SourceReadable(s, Prod)
    && (SameTag(s, Prod) ||
         (!e.call.dirtyIndex && !e.call.dryRun &&
          PushAccepted(s, s.history + [Repin(Head(s.history), Prod, SourcePin(Head(s.history), Prod))], e.call.pushReaches)))
  }

  /** The event syncs prod: the gate, somebody's manual sync, or a reconciliation if prod
      is automated. */
  predicate SyncsProd(s: State, e: Event)
    requires ValidState(s)
  {
    OpensGate(s, e) || e == ManualSync(ProdApp) || (e == Reconcile(ProdApp) && ProdApp in s.automated)
  }

  lemma SyncStep(s: State, e: Event)
    requires ValidState(s)
    ensures Step(s, e).live.prod == if SyncsProd(s, e) then Head(Step(s, e).origin).prod.tag else s.live.prod
    ensures Step(s, e).automated == s.automated
  {
  }

  /** Event `k` of the run synced prod. */
  predicate SyncAt(s: State, events: seq<Event>, k: int)
    requires ValidState(s)
  {
    0 <= k < |events| && SyncsProd(RunEvents(s, events[..k]), events[k])
  }

  /** The last time prod was synced during the run, -1 if it never was. */
  function LastSync(s: State, events: seq<Event>): (k: int)
    requires ValidState(s)
    ensures -1 <= k < |events|
  {
    if events == [] then -1
    else if SyncsProd(RunEvents(s, events[..|events| - 1]), events[|events| - 1]) then |events| - 1
    else LastSync(s, events[..|events| - 1])
  }

  lemma PrefixOfInit(events: seq<Event>, j: int)
    requires events != [] && 0 <= j < |events|
    ensures events[..|events| - 1][..j] == events[..j]
  {
  }

  lemma SyncInInit(s: State, events: seq<Event>, j: int)
    requires ValidState(s) && events != [] && 0 <= j < |events| - 1
    ensures SyncAt(s, events, j) <==> SyncAt(s, events[..|events| - 1], j)
  {
    PrefixOfInit(events, j);
  }

  lemma {:induction false} LastSyncIsLast(s: State, events: seq<Event>)
    requires ValidState(s)
    ensures LastSync(s, events) >= 0 ==> SyncAt(s, events, LastSync(s, events))
    ensures forall j :: LastSync(s, events) < j < |events| ==> !SyncAt(s, events, j)
  {
    if events != [] {
      LastSyncIsLast(s, events[..|events| - 1]);
      forall j | 0 <= j < |events| - 1 ensures SyncAt(s, events, j) <==> SyncAt(s, events[..|events| - 1], j) { SyncInInit(s, events, j); }
    }
  }

  /** Main's prod pin after event `k`; for -1, what prod ran at the start. */
  function PinAfter(s: State, events: seq<Event>, k: int): string
    requires ValidState(s) && -1 <= k < |events|
  {
    if k >= 0 then Head(RunEvents(s, events[..k + 1]).origin).prod.tag else s.live.prod
  }

  lemma PinInInit(s: State, events: seq<Event>, k: int)
    requires ValidState(s) && events != [] && -1 <= k < |events| - 1
    ensures PinAfter(s, events, k) == PinAfter(s, events[..|events| - 1], k)
  {
    if k >= 0 { PrefixOfInit(events, k + 1); }
  }

  lemma PinAfterLast(s: State, events: seq<Event>)
    requires ValidState(s) && events != []
    ensures PinAfter(s, events, |events| - 1) == Head(RunEvents(s, events).origin).prod.tag
  {
    assert events[..|events|] == events;
  }

  /** Under any sync modes, prod runs what main pinned when prod was last synced, and what
      it ran before if it never was. */
  lemma {:induction false} ProdRunsLastSync(s: State, events: seq<Event>)
    requires ValidState(s)
    ensures RunEvents(s, events).automated == s.automated
    ensures RunEvents(s, events).live.prod == PinAfter(s, events, LastSync(s, events))
  {
    if events != [] {
      var init := events[..|events| - 1];
      ProdRunsLastSync(s, init);
      SyncStep(RunEvents(s, init), events[|events| - 1]);
      if SyncsProd(RunEvents(s, init), events[|events| - 1]) {
        PinAfterLast(s, events);
      } else {
        PinInInit(s, events, LastSync(s, init));
      }
    }
  }

  /** With prod's sync mode manual, however often ArgoCD reconciles: prod runs what main
      pinned when a human last opened the gate or synced it by hand. */
  lemma ProdMovesOnlyAtTheGate(s: State, events: seq<Event>)
    requires ValidState(s) && ProdApp !in s.automated
    ensures var k := LastSync(s, events);
      && RunEvents(s, events).live.prod == PinAfter(s, events, k)
      && (k >= 0 ==> events[k] == ManualSync(ProdApp) || OpensGate(RunEvents(s, events[..k]), events[k]))
      && forall j :: k < j < |events| ==> events[j] != ManualSync(ProdApp) && !OpensGate(RunEvents(s, events[..j]), events[j])
  {
    ProdRunsLastSync(s, events);
    LastSyncIsLast(s, events);
    var k := LastSync(s, events);
    if k >= 0 { ProdRunsLastSync(s, events[..k]); }
    forall j | k < j < |events| ensures !SyncsProd(RunEvents(s, events[..j]), events[j]) { assert !SyncAt(s, events, j); }
  }

  /** The gate is the missing automated block: a reconciliation leaves a promoted prod as
      it is if and only if its sync mode is manual. */
  lemma GateIffManual(s: State)
    requires ValidState(s) && s.live.prod != Head(s.origin).prod.tag
    ensures Step(s, Reconcile(ProdApp)) == s <==> ProdApp !in s.automated
  {
  }

  /** Whatever runs in prod at any time went through staging and dev first. */
  lemma {:induction false} LiveProdWasStaged(s: State, events: seq<Event>)
    requires ValidState(s) && Chain(s.history) && Chain(s.origin) && PinnedInProd(s.origin, s.live.prod)
    ensures var t := RunEvents(s, events);
      PinnedInProd(t.origin, t.live.prod) && StagedBy(t.origin, |t.origin| - 1, t.live.prod)
  {
    StrictChain(s, events);
    LiveProdIsPinned(s, events);
    var t := RunEvents(s, events);
    var k :| 0 <= k < |t.origin| && t.origin[k].prod.tag == t.live.prod;
    assert ChainedAt(t.origin, k);
    ByLonger(t.origin, t.origin, k, |t.origin| - 1, t.live.prod);
  }

  lemma StaysPinned(t: State, e: Event)
    requires ValidState(t) && PinnedInProd(t.origin, t.live.prod) && t.origin <= Step(t, e).origin
    ensures PinnedInProd(Step(t, e).origin, Step(t, e).live.prod)
  {
    SyncStep(t, e);
    var u := Step(t, e);
    if SyncsProd(t, e) {
      assert u.origin[|u.origin| - 1].prod.tag == u.live.prod;
    } else {
      var k :| 0 <= k < |t.origin| && t.origin[k].prod.tag == t.live.prod;
      assert u.origin[k].prod.tag == u.live.prod;
    }
  }

  lemma {:induction false} LiveProdIsPinned(s: State, events: seq<Event>)
    requires ValidState(s) && Chain(s.history) && Chain(s.origin) && PinnedInProd(s.origin, s.live.prod)
    ensures PinnedInProd(RunEvents(s, events).origin, RunEvents(s, events).live.prod)
  {
    if events != [] {
      var init, e := events[..|events| - 1], events[|events| - 1];
      LiveProdIsPinned(s, init);
      StrictChain(s, init);
      StepKeepsChain(RunEvents(s, init), e);
      StaysPinned(RunEvents(s, init), e);
    }
  }

  // ---- dry runs -----------------------------------------------------------------------------------------

  /** Dry runs, except `prod --sync --dry-run`, which opens the gate when the tag is
      already pinned (`DryRun`). */
  const Effective: Event -> bool := (e: Event) => !(e.PromoteLocally? && e.call.dryRun && (e.call.env == Staging || !e.call.sync))

  lemma RunSnoc(s: State, events: seq<Event>, e: Event)
    requires ValidState(s)
    ensures RunEvents(s, events + [e]) == Step(RunEvents(s, events), e)
  {
    assert (events + [e])[..|events|] == events;
  }

  lemma FilterSnoc(events: seq<Event>, e: Event)
    ensures Filter(events + [e], Effective) == if Effective(e) then Filter(events, Effective) + [e] else Filter(events, Effective)
  {
    FilterAppend(events, [e], Effective);
  }

  lemma IneffectiveStep(s: State, e: Event)
    requires ValidState(s) && !Effective(e)
    ensures Step(s, e) == s
  {
  }

  /** Leaving every such dry run out of a run changes nothing, neither repository nor live state. */
  lemma {:induction false} DryRunsCanBeSkipped(s: State, events: seq<Event>)
    requires ValidState(s)
    ensures RunEvents(s, Filter(events, Effective)) == RunEvents(s, events)
  {
    if events != [] {
      var init, e := events[..|events| - 1], events[|events| - 1];
      DryRunsCanBeSkipped(s, init);
      assert events == init + [e];
      FilterSnoc(init, e);
      RunSnoc(s, init, e);
      if Effective(e) { RunSnoc(s, Filter(init, Effective), e); } else { IneffectiveStep(RunEvents(s, init), e); }
    }
  }

  /** A dry run never touches a repository; it leaves prod alone too, except that with an
      already promoted tag `--sync` still opens the gate. */
  lemma DryRun(s: State, c: Call)
    requires ValidState(s) && c.dryRun
    ensures Promote(s, c).0.history == s.history && Promote(s, c).0.origin == s.origin
    ensures Promote(s, c).0 == s <==> !(OpensGate(s, PromoteLocally(c)) && s.live.prod != Head(s.origin).prod.tag)
  {
  }

  // ---- the wait, and the exit code ----------------------------------------------------------------------

  /** The answer at which the wait ends: the first terminal one, or else the last. */
  predicate StopsAt(phases: seq<string>, k: int) {
    && 0 <= k < |phases|
    && (phases[k] in {"Succeeded", "Failed", "Error"} || k == |phases| - 1)
    && forall j :: 0 <= j < k ==> phases[j] !in {"Succeeded", "Failed", "Error"}
  }

  /** The first terminal answer exists and is a success. */
  ghost predicate SucceedsFirst(phases: seq<string>) { exists k :: StopsAt(phases, k) && phases[k] == "Succeeded" }

  lemma {:induction false} PollStops(phases: seq<string>) returns (k: int)
    requires phases != []
    ensures StopsAt(phases, k) && PollPhase(phases) == phases[k]
  {
    if Terminal(phases[0]) || |phases| == 1 {
      k := 0;
    } else {
      k := PollStops(phases[1..]);
      assert forall j :: 0 < j < |phases| ==> phases[1..][j - 1] == phases[j];
      k := k + 1;
    }
  }

  lemma StopsOnce(phases: seq<string>, j: int, k: int)
    requires StopsAt(phases, j) && StopsAt(phases, k)
    ensures j == k
  {
  }

  lemma PollSucceedsIff(phases: seq<string>)
    requires phases != []
    ensures PollPhase(phases) == SUCCEEDED <==> SucceedsFirst(phases)
  {
    var k := PollStops(phases);
    forall j | StopsAt(phases, j) ensures j == k { StopsOnce(phases, j, k); }
  }

  /** Exit code 0, exactly: the source pin could be read, the target has its tag already or the
      change is a dry run or was committed and pushed as a fast-forward, and where a prod
      sync then opens the gate, kubectl is there and the first terminal answer of the sixty
      is a success. */
  lemma ExitCodeIff(s: State, c: Call)
    requires ValidState(s) && ValidCall(c)
    ensures var p := Head(s.history); var source, target := SourcePin(p, c.env), TargetPin(p, c.env);
      var pinned := target.tag == source.tag;
      Promote(s, c).1 == 0 <==>
        && source.name != "" && source.tag != ""
        && (pinned || (!c.dirtyIndex && (c.dryRun || (c.pushReaches && s.origin <= s.history + [Repin(p, c.env, source)]))))
        && (c.env == Prod && c.sync && (pinned || !c.dryRun) ==> c.kubectl && SucceedsFirst(c.phases))
    ensures Promote(s, c).1 == 0 || Promote(s, c).1 == 1
  {
    PollSucceedsIff(c.phases);
  }

  // ---- the other events ---------------------------------------------------------------------------------

  /** A promotion in CI does to main what a local one from a fresh checkout would, and nothing else. */
  lemma CiIsFreshCheckout(s: State, c: Call)
    requires ValidState(s) && !c.sync && !c.dryRun && !c.dirtyIndex && c.pushReaches
    ensures Step(s, PromoteInCi(c.env)) == s.(origin := Promote(s.(history := s.origin), c).0.origin)
  {
  }

  /** A bump leaves main with this dev pin and the overlays as they were. */
  lemma BumpPinsDev(s: State, pin: Pin)
    requires ValidState(s)
    ensures var t := Step(s, Bump(pin));
      && Head(t.origin) == Head(s.origin).(dev := pin) && s.origin <= t.origin
      && t == s.(origin := t.origin)
  {
  }

  function LiveTag(l: Live, app: App): string { match app case DevApp => l.dev case StagingApp => l.staging case ProdApp => l.prod }

  function PinnedTag(p: Pins, app: App): string {
    match app case DevApp => p.dev.tag case StagingApp => p.staging.tag case ProdApp => p.prod.tag
  }

  /** A reconciliation rolls an automated application to main's pin, a manual sync any one, and
      neither another one. */
  lemma ReconcileRollsToMain(s: State, app: App, other: App)
    requires ValidState(s)
    ensures var t := Step(s, Reconcile(app));
      && LiveTag(t.live, other) == (if other == app && app in s.automated then PinnedTag(Head(s.origin), app) else LiveTag(s.live, other))
      && t == s.(live := t.live)
    ensures var t := Step(s, ManualSync(app));
      && LiveTag(t.live, other) == (if other == app then PinnedTag(Head(s.origin), app) else LiveTag(s.live, other))
      && t == s.(live := t.live)
  {
  }

  /** A pull catches up with main exactly if the clone has no commit of its own. */
  lemma PullCatchesUp(s: State)
    requires ValidState(s)
    ensures var t := Step(s, Pull); s.history <= t.history && t == s.(history := t.history)
    ensures Step(s, Pull).history == s.origin <==> s.history <= s.origin
  {
  }

  /** Reverting the last commit brings back the pins before it, on main too if it is pushed. */
  lemma RevertRestores(s: State, reaches: bool)
    requires ValidState(s) && |s.history| > 1
    ensures var t := Step(s, Revert(|s.history| - 1, reaches));
      && Head(t.history) == s.history[|s.history| - 2] && s.history <= t.history
      && (reaches && s.origin <= s.history ==> t.origin == t.history)
      && t.live == s.live
  {
  }

  /** A clone that is reset promotes main's own source pin again, whatever commit was lost. */
  lemma ResetRecovers(s: State, c: Call)
    requires ValidState(s) && !c.dirtyIndex && !c.dryRun && c.pushReaches
    requires SourcePin(Head(s.origin), c.env).name != "" && SourcePin(Head(s.origin), c.env).tag != ""
    ensures var t := Promote(Step(s, Reset), c).0;
      && TargetPin(Head(t.origin), c.env).tag == SourcePin(Head(s.origin), c.env).tag
      && s.origin <= t.origin == t.history
  {
  }

  // ---- what a reported success means ----------------------------------------------------------------------

  /** A successful promotion pins the source environment's current tag in the clone, and
      its name too unless the tag was already there; no other pin changes. */
  lemma SuccessPinsSource(s: State, c: Call)
    requires ValidState(s) && Promote(s, c).1 == 0 && !c.dryRun
    ensures var before, after := Head(s.history), Head(Promote(s, c).0.history);
      && TargetPin(after, c.env).tag == SourcePin(before, c.env).tag
      && (TargetPin(after, c.env) == SourcePin(before, c.env) <==>
            !SameTag(s, c.env) || TargetPin(before, c.env).name == SourcePin(before, c.env).name)
      && after.dev == before.dev
      && (if c.env == Staging then after.prod == before.prod else after.staging == before.staging)
  {
  }

  /** It pins it on main exactly if there was something to promote or main had the tag
      already: a tag that only the clone had is reported as done and never pushed. */
  lemma SuccessReachesMain(s: State, c: Call)
    requires ValidState(s) && Promote(s, c).1 == 0 && !c.dryRun
    ensures TargetPin(Head(Promote(s, c).0.origin), c.env).tag == SourcePin(Head(s.history), c.env).tag
      <==> !SameTag(s, c.env) || TargetPin(Head(s.origin), c.env).tag == SourcePin(Head(s.history), c.env).tag
  {
    if !SameTag(s, c.env) { assert Head(Promote(s, c).0.origin) == Repin(Head(s.history), c.env, SourcePin(Head(s.history), c.env)); }
  }

  /** After `prod --sync` reports success, prod runs what main pins; that is the tag
      staging had in the operator's clone under the same condition. */
  lemma SuccessfulGate(s: State, c: Call)
    requires ValidState(s) && ValidCall(c) && c.env == Prod && c.sync && !c.dryRun && Promote(s, c).1 == 0
    ensures var t, staged := Promote(s, c).0, SourcePin(Head(s.history), Prod).tag;
      && t.live.prod == Head(t.origin).prod.tag
      && (t.live.prod == staged <==> !SameTag(s, Prod) || TargetPin(Head(s.origin), Prod).tag == staged)
  {
    SuccessReachesMain(s, c);
  }

  /** So a commit whose push was lost is not pushed by running the script again: the
      second run finds the tag already there and reports success. */
  lemma LostPushIsNotRetried(s: State, c: Call, again: Call)
    requires ValidState(s) && SourceReadable(s, c.env) && !SameTag(s, c.env)
    requires !c.dirtyIndex && !c.dryRun && !c.pushReaches
    requires again == c.(pushReaches := true, sync := false)
    ensures Promote(s, c).1 == 1
    ensures var t := Promote(s, c).0; Promote(t, again).1 == 0 && Promote(t, again).0.origin == s.origin
  {
  }
}
