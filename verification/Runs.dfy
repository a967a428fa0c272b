/** Runs of the protocol: how they grow, and what holds in every state of every run. */
module Runs {
  import opened Wrappers
  import opened Protocol
  import opened Invariants
  import opened DataInvariants
  import opened ProgressInvariants

  // ----- growing a run -----

  lemma PlayOne(cfg: Config, init: State, log: seq<Event>, s: State, e: Event)
    requires Play(cfg, init, log) == Some(s) && Enabled(cfg, s, e)
    ensures Play(cfg, init, log + [e]) == Some(Apply(cfg, s, e))
  {
    hide Enabled, Apply;
    assert (log + [e])[..|log|] == log;
  }

  /** Everybody but `who` takes the steps `es`, from `s` to `t`. */
  predicate OthersRun(cfg: Config, who: Actor, s: State, es: seq<Event>, t: State)
    decreases |es|
  {
    if es == [] then t == s
    else !By(es[0], who) && Enabled(cfg, s, es[0]) && OthersRun(cfg, who, Apply(cfg, s, es[0]), es[1..], t)
  }

  lemma {:induction false} PlayOthers(cfg: Config, who: Actor, init: State, log: seq<Event>, s: State, es: seq<Event>, t: State)
    requires Play(cfg, init, log) == Some(s) && OthersRun(cfg, who, s, es, t)
    ensures Play(cfg, init, log + es) == Some(t)
    decreases |es|
  {
    hide Enabled, Apply;
    if es == [] {
      assert log + es == log;
    } else {
      PlayOne(cfg, init, log, s, es[0]);
      PlayOthers(cfg, who, init, log + [es[0]], Apply(cfg, s, es[0]), es[1..], t);
      assert log + [es[0]] + es[1..] == log + es;
    }
  }

  /** A controller's own request: its status and its finalizer. */
  predicate OwnKept(who: Actor, s: State, t: State) {
    if who == Upgrader then t.up == s.up && t.upFinalizer == s.upFinalizer
    else t.rb == s.rb && t.rbFinalizer == s.rbFinalizer
  }

  predicate Untouched(who: Actor, s: State, t: State) {
    OwnKept(who, s, t) && PassOf(t, who) == PassOf(s, who)
  }

  lemma StepSaw(cfg: Config, s: State, who: Actor, sight: Sight)
    requires PassOf(s, who).active && IsTrueSight(cfg, s, who, sight)
    ensures Enabled(cfg, s, Saw(who, sight))
    ensures OwnKept(who, s, Apply(cfg, s, Saw(who, sight)))
    ensures PassOf(Apply(cfg, s, Saw(who, sight)), who) == NoteSight(cfg, PassOf(s, who), who, sight)
    ensures var t := Apply(cfg, s, Saw(who, sight)); t.world == s.world && t.up == s.up && t.rb == s.rb
  {
    hide IsTrueSight, NoteSight, UpHistoryAfter, RbHistoryAfter;
  }

  lemma StepFail(cfg: Config, s: State, who: Actor)
    requires PassOf(s, who).active
    ensures Enabled(cfg, s, Fail(who))
    ensures OwnKept(who, s, Apply(cfg, s, Fail(who)))
    ensures PassOf(Apply(cfg, s, Fail(who)), who) == PassOf(s, who).(trouble := true)
  {
    hide UpHistoryAfter, RbHistoryAfter, WorldAfter;
  }

  lemma StepDid(cfg: Config, s: State, who: Actor, call: Call)
    requires MayCall(cfg, s, who, call) && Accepted(cfg, s.world, call)
    ensures Enabled(cfg, s, Did(who, call))
    ensures OwnKept(who, s, Apply(cfg, s, Did(who, call)))
    ensures PassOf(Apply(cfg, s, Did(who, call)), who) == NoteCall(cfg, PassOf(s, who), call)
    ensures Apply(cfg, s, Did(who, call)).world == Effect(cfg, s.world, who, call)
  {
    hide MayCall, Accepted, NoteCall, UpHistoryAfter, RbHistoryAfter, Effect;
  }

  lemma MayCallActive(cfg: Config, s: State, who: Actor, call: Call)
    requires MayCall(cfg, s, who, call)
    ensures PassOf(s, who).active
  {
  }

  /** What a controller may call is no matter of what others do. */
  lemma MayCallStays(cfg: Config, s: State, t: State, who: Actor, call: Call)
    requires MayCall(cfg, s, who, call) && Untouched(who, s, t)
    ensures MayCall(cfg, t, who, call) && PassOf(t, who).active
  {
    hide UpgradeCall, RollbackCall;
    MayCallActive(cfg, s, who, call);
  }

  lemma OthersStep(cfg: Config, who: Actor, s: State, e: Event)
    requires !By(e, who)
    ensures Untouched(who, s, Apply(cfg, s, e))
  {
    hide WorldAfter, UpHistoryAfter, RbHistoryAfter, NoteCall, NoteSight, RankOf;
  }

  /** Nobody writes another controller's request. */
  lemma {:induction false} OthersLeaveAlone(cfg: Config, who: Actor, s: State, es: seq<Event>, t: State)
    requires OthersRun(cfg, who, s, es, t)
    ensures Untouched(who, s, t)
    decreases |es|
  {
    hide Enabled, Apply;
    if es != [] {
      OthersStep(cfg, who, s, es[0]);
      OthersLeaveAlone(cfg, who, Apply(cfg, s, es[0]), es[1..], t);
    }
  }

  // ----- what holds in every state of every run -----

  ghost predicate Kept(cfg: Config, s: State) {
    && Order(cfg, s) && Exclusive(cfg, s) && Files(cfg, s) && Commits(s)
    && (!cfg.dryRun ==> Mirror(s)) && Hold(s)
    && Snaps(cfg, s) && Names(cfg, s) && Volumes(cfg, s)
    && Progress(s) && RolledOut(cfg, s) && Timers(cfg, s)
  }

  lemma KeptAtFirst(cfg: Config, s: State)
    requires Initial(s)
    ensures Kept(cfg, s)
  {
    assert Named(cfg, s.up.snapshots, Some(""));
  }

  lemma SnapsStopped(cfg: Config, s: State)
    requires Snaps(cfg, s)
    ensures s.up.snapshots != [] ==> s.up.stopped
  {
  }

  lemma KeptByStep(cfg: Config, s: State, e: Event)
    requires Kept(cfg, s) && Enabled(cfg, s, e)
    ensures Kept(cfg, Apply(cfg, s, e))
  {
    hide Enabled, Apply, Order, Exclusive, Files, Commits, Mirror, Hold, Snaps, Names, Volumes, Progress, RolledOut, Timers;
    OrderKept(cfg, s, e);
    ExclusiveKept(cfg, s, e);
    FilesKept(cfg, s, e);
    CommitsKept(cfg, s, e);
    if !cfg.dryRun { MirrorKept(cfg, s, e); }
    HoldKept(cfg, s, e);
    SnapsKept(cfg, s, e);
    NamesKept(cfg, s, e);
    VolumesKept(cfg, s, e);
    ProgressKept(cfg, s, e);
    RolledOutKept(cfg, s, e);
    SnapsStopped(cfg, s);
    TimersKept(cfg, s, e);
  }

  /** Every state any run reaches has all the properties. */
  lemma {:induction false} RunKeeps(cfg: Config, init: State, log: seq<Event>, s: State)
    requires Play(cfg, init, log) == Some(s)
    ensures Kept(cfg, s)
  {
    hide Enabled, Apply, Kept, Initial;
    if log == [] {
      KeptAtFirst(cfg, s);
    } else {
      var before := Play(cfg, init, log[..|log| - 1]).value;
      RunKeeps(cfg, init, log[..|log| - 1], before);
      KeptByStep(cfg, before, log[|log| - 1]);
    }
  }
}
