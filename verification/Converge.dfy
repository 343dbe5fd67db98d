/** Retrying create: whatever failed attempts left behind, one undisturbed attempt ends where it always would have. */
module Converge {
  import opened Numbers
  import opened Paths
  import opened Backend
  import opened Create
  import opened Wrappers
  import opened Progress

  // ---------- the state an undisturbed attempt aims at ----------

  /** The place of the junction create links at. */
  function NewRoot(v: Volume): seq<string> {
    BelowMount(v.junction, v.info.mount)
  }

  function FinishFileset(v: Volume, fileset: Option<Fileset>): Fileset {
    var now := if fileset.Some? && Linked(fileset.value.link) then fileset.value
               else Fileset(v.junction, NewRoot(v), if fileset.Some? then fileset.value.limitKiB else 0);
    if v.size != 0 && LimitBytes(now.limitKiB) == 0 && Kib(v.size) < INT63 then now.(limitKiB := Kib(v.size)) else now
  }

  /** The data directory the volume has, or will have once its fileset is linked. */
  function Goal(v: Volume, s: State): string {
    DataDir(v, FinishFileset(v, FilesetAt(s, Key(v))).link)
  }

  function WithFileset(v: Volume, s: State): State {
    if v.isFileset then
      s.(filesets := s.filesets[Key(v) := FinishFileset(v, FilesetAt(s, Key(v)))],
         dirs := if LinkedNow(v, s) then s.dirs else s.dirs + {Loc(v.info.device, NewRoot(v))})
    else s
  }

  function WithTree(v: Volume, s: State, target: string): State {
    CreateSymLink(MakeDirectory(s, DataLoc(v, target)), v.slnk, LinkTo(v, target))
  }

  /** Every missing piece added, nothing else changed. */
  function Complete(v: Volume, s: State): State {
    WithTree(v, WithFileset(v, s), Goal(v, s))
  }

  // ---------- when an undisturbed attempt succeeds ----------

  predicate Reachable(v: Volume) {
    v.fsKnown && !v.info.isRemote && (v.foreign ==> v.info.mounted) && v.info.mount != "" &&
      (v.size != 0 ==> v.info.quotaOn)
  }

  predicate QuotaFits(v: Volume, s: State) {
    v.size != 0 && Key(v) in s.filesets ==> LimitBytes(s.filesets[Key(v)].limitKiB) in {0, v.size}
  }

  predicate JunctionFree(v: Volume, s: State) {
    LinkedNow(v, s) || CanLink(s, Key(v), v.junction, v.info.mount)
  }

  /** What a caller can check of the surroundings and the backend before an attempt. */
  predicate Ready(v: Volume, s: State) {
    if v.isFileset then Reachable(v) && QuotaFits(v, s) && JunctionFree(v, s)
    else Present(s, LocOf(v.info.device, v.dirBase))
  }

  /** What of that is still to be met at a program point. */
  predicate ReadyAt(v: Volume, pc: Pc, s: State)
    requires Admitted(pc) || pc.Done?
  {
    match pc
    case ReadOwnerFs => Ready(v, s)
    case CheckQuotaOn => v.info.quotaOn && v.info.mount != "" && QuotaFits(v, s) && JunctionFree(v, s)
    case FindFileset => v.info.mount != "" && QuotaFits(v, s) && JunctionFree(v, s)
    case MakeFileset => v.info.mount != "" && QuotaFits(v, s) && JunctionFree(v, s)
    case FindAgain => v.info.mount != "" && QuotaFits(v, s) && JunctionFree(v, s)
    case LinkIt => v.info.mount != "" && QuotaFits(v, s) && JunctionFree(v, s)
    case FindLinked => v.info.mount != "" && QuotaFits(v, s)
    case ReadQuota(_) => v.info.mount != "" && QuotaFits(v, s)
    case WriteQuota(_) => v.info.mount != ""
    case FindBase => Ready(v, s)
    case Done(outcome) => outcome.Created?
    case _ => true
  }

  // ---------- steps ----------

  lemma LookStepReady(v: Volume, pc: Pc, s: State)
    requires pc.ReadOwnerFs? || pc.CheckQuotaOn? || pc.FindFileset? || pc.FindAgain? || pc.FindLinked?
    requires Knows(v, pc, See(v, s))
    ensures ReadyAt(v, FilesetStep(v, pc, s, Clean).pc, s) <==> ReadyAt(v, pc, s)
  {
  }

  lemma MakeFilesetReady(v: Volume, s: State)
    requires WfVolume(v) && Knows(v, MakeFileset, See(v, s))
    ensures var turn := FilesetStep(v, MakeFileset, s, Clean);
      ReadyAt(v, turn.pc, turn.state) <==> ReadyAt(v, MakeFileset, s)
  {
    var k := Key(v);
    var s' := CreateFileset(s, k, v.autoLink, v.junction, v.info.mount).state;
    assert k !in s.filesets;
    assert FilesetStep(v, MakeFileset, s, Clean) == Turn(FindAgain, s');
    if s'.filesets[k].link == UNLINKED {
      SameConflicts(v, s, s');
    }
    assert JunctionFree(v, s') <==> JunctionFree(v, s);
    assert QuotaFits(v, s') && QuotaFits(v, s);
  }

  lemma LinkItReady(v: Volume, s: State)
    requires WfVolume(v) && Knows(v, LinkIt, See(v, s))
    ensures var turn := FilesetStep(v, LinkIt, s, Clean); ReadyAt(v, turn.pc, turn.state) <==> ReadyAt(v, LinkIt, s)
  {
    var k := Key(v);
    var e := LinkFileset(s, k, v.junction, v.info.mount);
    assert See(v, s).fileset == Some(s.filesets[k]);
    assert e.ok <==> JunctionFree(v, s);
    assert FilesetStep(v, LinkIt, s, Clean) == Turn(if e.ok then FindLinked else BROKEN, e.state);
    assert e.ok ==> e.state.filesets[k].limitKiB == s.filesets[k].limitKiB;
  }

  /** Whether a fileset can be linked depends on what is there and on other filesets. */
  lemma SameConflicts(v: Volume, s: State, s': State)
    requires forall o :: o != Key(v) ==> (o in s.filesets <==> o in s'.filesets)
    requires forall o :: o != Key(v) && o in s.filesets ==> s'.filesets[o] == s.filesets[o]
    requires s'.dirs == s.dirs && s'.symlinks == s.symlinks
    ensures CanLink(s, Key(v), v.junction, v.info.mount) == CanLink(s', Key(v), v.junction, v.info.mount)
  {
    assert forall place :: Conflict(s, Key(v), place) == Conflict(s', Key(v), place);
  }

  lemma AtTargetReady(v: Volume, link: string, s: State)
    requires Linked(link)
    ensures Admitted(AtTarget(v, link)) || AtTarget(v, link).Done?
    ensures ReadyAt(v, AtTarget(v, link), s) <==> v.info.mount != ""
  {
  }

  lemma ReadQuotaReady(v: Volume, link: string, s: State)
    requires WfVolume(v) && Knows(v, ReadQuota(link), See(v, s))
    ensures var turn := FilesetStep(v, ReadQuota(link), s, Clean);
      turn.state == s && (ReadyAt(v, turn.pc, s) <==> ReadyAt(v, ReadQuota(link), s))
  {
    var k := Key(v);
    assert k in s.filesets && Linked(link);
    QuotaLeads(v, link, s, k);
    AtTargetReady(v, link, s);
    AfterQuotaReady(v, link, s, AfterQuota(v, link, ListQuota(s, k)));
  }

  lemma AfterQuotaReady(v: Volume, link: string, s: State, next: Pc)
    requires Key(v) in s.filesets && v.size != 0 && (ReadyAt(v, AtTarget(v, link), s) <==> v.info.mount != "")
    requires var n := LimitBytes(s.filesets[Key(v)].limitKiB);
      next ==
        if n == 0 then WriteQuota(link) else if n == v.size then AtTarget(v, link) else Done(Failed(QuotaMismatch))
    ensures Admitted(next) || next.Done?
    ensures ReadyAt(v, next, s) <==> ReadyAt(v, ReadQuota(link), s)
  {
  }

  lemma WriteQuotaReady(v: Volume, link: string, s: State)
    requires WfVolume(v) && Knows(v, WriteQuota(link), See(v, s))
    ensures var turn := FilesetStep(v, WriteQuota(link), s, Clean);
      ReadyAt(v, turn.pc, turn.state) <==> ReadyAt(v, WriteQuota(link), s)
  {
    var s' := SetFilesetQuota(s, Key(v), FormatUint(v.size)).state;
    QuotaWritten(v, s, Key(v));
    assert FilesetStep(v, WriteQuota(link), s, Clean) == Turn(AtTarget(v, link), s');
    AtTargetReady(v, link, s');
  }

  lemma TreeStepReady(v: Volume, pc: Pc, s: State)
    requires OnTree(pc) && Knows(v, pc, See(v, s))
    ensures var turn := TreeStep(v, pc, s, Clean); ReadyAt(v, turn.pc, turn.state) <==> ReadyAt(v, pc, s)
  {
  }

  /** A step without a fault meets its part of the conditions, or fails exactly because one does not hold. */
  lemma CleanStepReady(v: Volume, pc: Pc, s: State)
    requires WfVolume(v) && Admitted(pc) && Knows(v, pc, See(v, s))
    ensures var turn := BodyStep(v, pc, s, Clean); ReadyAt(v, turn.pc, turn.state) <==> ReadyAt(v, pc, s)
  {
    if OnTree(pc) {
      TreeStepReady(v, pc, s);
    } else if pc.MakeFileset? {
      MakeFilesetReady(v, s);
    } else if pc.LinkIt? {
      LinkItReady(v, s);
    } else if pc.ReadQuota? {
      ReadQuotaReady(v, pc.link, s);
    } else if pc.WriteQuota? {
      WriteQuotaReady(v, pc.link, s);
    } else {
      LookStepReady(v, pc, s);
    }
  }

  // ---------- the goal does not move ----------

  /** Only the completed fileset counts, and its junction. */
  lemma SameGoal(v: Volume, s: State, s': State)
    requires v.isFileset && s'.symlinks == s.symlinks && s'.filesets - {Key(v)} == s.filesets - {Key(v)}
    requires FinishFileset(v, FilesetAt(s', Key(v))) == FinishFileset(v, FilesetAt(s, Key(v)))
    requires WithFileset(v, s').dirs == WithFileset(v, s).dirs
    ensures Complete(v, s') == Complete(v, s)
  {
    var k, done := Key(v), FinishFileset(v, FilesetAt(s, Key(v)));
    var a, b := s'.filesets[k := done], s.filesets[k := done];
    assert forall o :: o in s.filesets && o != k ==> o in s.filesets - {k};
    assert forall o :: o in s'.filesets && o != k ==> o in s'.filesets - {k};
    assert forall o :: o in a <==> o in b;
    assert forall o :: o in a ==> a[o] == b[o] by {
      forall o | o in a && o != k ensures a[o] == b[o] {
        assert (s'.filesets - {k})[o] == (s.filesets - {k})[o];
      }
    }
    assert a == b;
    assert WithFileset(v, s') == WithFileset(v, s);
  }

  lemma LinkStepGoal(v: Volume, pc: Pc, s: State, f: Fault)
    requires WfVolume(v) && (pc.MakeFileset? || pc.LinkIt?) && Knows(v, pc, See(v, s))
    ensures Complete(v, FilesetStep(v, pc, s, f).state) == Complete(v, s)
  {
    var s' := FilesetStep(v, pc, s, f).state;
    assert s'.filesets - {Key(v)} == s.filesets - {Key(v)};
    SameGoal(v, s, s');
  }

  lemma WriteQuotaGoal(v: Volume, link: string, s: State, f: Fault)
    requires WfVolume(v) && Knows(v, WriteQuota(link), See(v, s))
    ensures Complete(v, FilesetStep(v, WriteQuota(link), s, f).state) == Complete(v, s)
  {
    var s' := FilesetStep(v, WriteQuota(link), s, f).state;
    QuotaWritten(v, s, Key(v));
    StoredPrinted(v.size);
    assert s'.filesets - {Key(v)} == s.filesets - {Key(v)};
    SameGoal(v, s, s');
  }

  lemma TreeStepGoal(v: Volume, pc: Pc, s: State, f: Fault)
    requires WfVolume(v) && OnTree(pc) && Mutates(pc) && Knows(v, pc, See(v, s))
    ensures Complete(v, TreeStep(v, pc, s, f).state) == Complete(v, s)
  {
    var s' := TreeStep(v, pc, s, f).state;
    var t := pc.target;
    assert t == Goal(v, s) == Goal(v, s');
    var m, m' := WithFileset(v, s), WithFileset(v, s');
    if f != Lost {
      if pc.MakeDir? {
        assert m' == MakeDirectory(m, DataLoc(v, t));
      } else {
        assert Present(m, DataLoc(v, t));
        assert m' == CreateSymLink(m, v.slnk, LinkTo(v, t));
      }
    }
  }

  /** No step, whatever its fault, changes where an undisturbed attempt ends. */
  lemma StepKeepsGoal(v: Volume, pc: Pc, s: State, f: Fault)
    requires WfVolume(v) && Admitted(pc) && Knows(v, pc, See(v, s))
    ensures Complete(v, BodyStep(v, pc, s, f).state) == Complete(v, s)
  {
    if !Mutates(pc) {
      assert BodyStep(v, pc, s, f).state == s;
    } else if OnTree(pc) {
      TreeStepGoal(v, pc, s, f);
    } else if pc.WriteQuota? {
      WriteQuotaGoal(v, pc.link, s, f);
    } else {
      LinkStepGoal(v, pc, s, f);
    }
  }

  /** A volume with no piece missing is its own completion. */
  lemma DoneIsGoal(v: Volume, id: string, s: State)
    requires WfVolume(v) && Knows(v, Done(Created(id)), See(v, s))
    ensures Complete(v, s) == s
  {
  }

  // ---------- conditions that faults do not spoil ----------

  lemma MakeFilesetKeepsReady(v: Volume, s: State, f: Fault)
    requires WfVolume(v) && v.isFileset && Ready(v, s)
    ensures Ready(v, FilesetStep(v, MakeFileset, s, f).state)
  {
    var s' := FilesetStep(v, MakeFileset, s, f).state;
    assert QuotaFits(v, s');
    if !LinkedNow(v, s') && !LinkedNow(v, s) {
      SameConflicts(v, s, s');
    }
    assert JunctionFree(v, s');
  }

  lemma LinkItKeepsReady(v: Volume, s: State, f: Fault)
    requires WfVolume(v) && v.isFileset && Ready(v, s)
    ensures Ready(v, FilesetStep(v, LinkIt, s, f).state)
  {
  }

  lemma WriteQuotaKeepsReady(v: Volume, link: string, s: State, f: Fault)
    requires WfVolume(v) && Knows(v, WriteQuota(link), See(v, s))
    requires SizeSurvives(v.size) && Ready(v, s)
    ensures Ready(v, FilesetStep(v, WriteQuota(link), s, f).state)
  {
    QuotaWritten(v, s, Key(v));
    StoredReadsBack(v.size);
  }

  /** Repeating a request finds the limit it has set itself, if it sets one. */
  predicate Repeatable(isFileset: bool, size: nat) {
    !isFileset || SizeSurvives(size)
  }

  lemma StepKeepsReady(v: Volume, pc: Pc, s: State, f: Fault)
    requires WfVolume(v) && Admitted(pc) && Knows(v, pc, See(v, s))
    requires Repeatable(v.isFileset, v.size) && Ready(v, s)
    ensures Ready(v, BodyStep(v, pc, s, f).state)
  {
    if pc.MakeFileset? {
      MakeFilesetKeepsReady(v, s, f);
    } else if pc.LinkIt? {
      LinkItKeepsReady(v, s, f);
    } else if pc.WriteQuota? {
      WriteQuotaKeepsReady(v, pc.link, s, f);
    }
  }

  // ---------- whole attempts ----------

  /** What every step, and so every attempt, keeps. */
  ghost predicate Keeps(v: Volume, s: State, s': State) {
    && Complete(v, s') == Complete(v, s)
    && Missing(v, See(v, s')) <= Missing(v, See(v, s))
    && (Repeatable(v.isFileset, v.size) && Ready(v, s) ==> Ready(v, s'))
  }

  lemma StepKeeps(v: Volume, pc: Pc, s: State, f: Fault)
    requires WfVolume(v) && Admitted(pc) && Knows(v, pc, See(v, s))
    ensures Keeps(v, s, BodyStep(v, pc, s, f).state)
    ensures var turn := BodyStep(v, pc, s, f); Knows(v, turn.pc, See(v, turn.state))
  {
    BodyStepAdvances(v, pc, s, f);
    StepKeepsGoal(v, pc, s, f);
    if Repeatable(v.isFileset, v.size) && Ready(v, s) {
      StepKeepsReady(v, pc, s, f);
    }
  }

  /** From admission to the end, under any faults. */
  lemma {:induction false} BodyKeeps(v: Volume, pc: Pc, s: State, faults: seq<Fault>)
    requires Admitted(pc) || pc.Done?
    requires WfVolume(v) && Knows(v, pc, See(v, s))
    ensures var e := BodyRun(v, pc, s, faults); Keeps(v, s, e.state) && Knows(v, Done(e.outcome), See(v, e.state))
    decreases Rank(pc)
  {
    if !pc.Done? {
      var turn := BodyStep(v, pc, s, Head(faults));
      StepKeeps(v, pc, s, Head(faults));
      BodyKeeps(v, turn.pc, turn.state, Tail(faults));
    }
  }

  lemma {:induction false} CleanBody(v: Volume, pc: Pc, s: State)
    requires Admitted(pc) || pc.Done?
    requires WfVolume(v) && Knows(v, pc, See(v, s))
    ensures BodyRun(v, pc, s, []).outcome.Created? <==> ReadyAt(v, pc, s)
    ensures BodyRun(v, pc, s, []).faults == []
    decreases Rank(pc)
  {
    if !pc.Done? {
      var turn := BodyStep(v, pc, s, Clean);
      StepKeeps(v, pc, s, Clean);
      CleanStepReady(v, pc, s);
      CleanBody(v, turn.pc, turn.state);
    }
  }

  /** The checks before admission: all of them read what no request changes. */
  predicate FrontOk(d: Driver, q: Request) {
    && d.primaryLinked
    && (d.primaryFs != q.backendFs ==> Info(d, d.primaryCid, d.primaryFs).mounted)
    && FsKey(d.primaryCid, q.backendFs) in d.filesystems
    && Info(d, d.primaryCid, q.backendFs).mounted
    && (q.isFileset && q.clusterId == "" ==> !Info(d, d.primaryCid, q.backendFs).isRemote)
    && (q.isFileset ==> ClusterId(d, q) in d.connmap)
  }

  /** Before admission an attempt only fails, or reaches the body with the backend as it was. */
  lemma {:induction false} Front(d: Driver, q: Request, pc: Pc, s: State, faults: seq<Fault>) returns (rest: seq<Fault>)
    requires BeforeAdmission(pc) || (pc.Done? && pc.outcome.Failed?)
    ensures var v, e := Resolve(d, q), FrontRun(d, q, pc, s, faults);
      || (e.outcome.Failed? && e.state == s)
      || e == BodyRun(v, BodyStart(v), s, rest)
    decreases Rank(pc)
  {
    rest := faults;
    if !pc.Done? && pc != Admission {
      var next := Read(s, Head(faults), FrontNext(d, q, pc)).pc;
      rest := Front(d, q, next, s, Tail(faults));
    }
  }

  lemma CleanFront(d: Driver, q: Request, s: State)
    ensures FrontOk(d, q) ==> CreateVolume(d, q, s, []) == BodyRun(Resolve(d, q), BodyStart(Resolve(d, q)), s, [])
    ensures !FrontOk(d, q) ==> CreateVolume(d, q, s, []).outcome.Failed?
  {
    var second := FrontNext(d, q, CheckPrimary);
    if second == CheckMount {
      var third := FrontNext(d, q, CheckMount);
      assert FrontRun(d, q, CheckMount, s, []) == FrontRun(d, q, third, s, []);
    }
    assert CreateVolume(d, q, s, []) == FrontRun(d, q, second, s, []);
    assert FrontRun(d, q, ReadVolumeFs, s, []) == FrontRun(d, q, FrontNext(d, q, ReadVolumeFs), s, []);
  }

  lemma StartKnows(v: Volume, w: View)
    ensures Knows(v, BodyStart(v), w)
  {
  }

  /** Any attempt at all: no piece is lost, the goal stays, and success means that the goal is reached. */
  lemma AttemptAdvances(d: Driver, q: Request, s: State, faults: seq<Fault>)
    ensures var v, e := Resolve(d, q), CreateVolume(d, q, s, faults);
      && Keeps(v, s, e.state)
      && (e.outcome.Created? ==>
        e.outcome.volumeId == v.id && e.state == Complete(v, s) && Missing(v, See(v, e.state)) == 0)
  {
    var v, e := Resolve(d, q), CreateVolume(d, q, s, faults);
    var rest := Front(d, q, CheckPrimary, s, faults);
    ResolvedIsWf(d, q);
    StartKnows(v, See(v, s));
    BodyKeeps(v, BodyStart(v), s, rest);
    if e.outcome.Created? {
      DoneIsGoal(v, e.outcome.volumeId, e.state);
      CreatedIsComplete(v, e.outcome.volumeId, See(v, e.state));
    }
  }

  /** An undisturbed attempt succeeds exactly when its checks pass and the backend is ready. */
  lemma CleanAttemptSucceeds(d: Driver, q: Request, s: State)
    ensures CreateVolume(d, q, s, []).outcome.Created? <==> FrontOk(d, q) && Ready(Resolve(d, q), s)
    ensures FrontOk(d, q) ==> CreateVolume(d, q, s, []).faults == []
  {
    var v := Resolve(d, q);
    CleanFront(d, q, s);
    ResolvedIsWf(d, q);
    StartKnows(v, See(v, s));
    CleanBody(v, BodyStart(v), s);
  }

  /** The backend after a series of attempts, each with its own faults. */
  function Attempts(d: Driver, q: Request, s: State, scripts: seq<seq<Fault>>): State
    decreases |scripts|
  {
    if scripts == [] then s else Attempts(d, q, CreateVolume(d, q, s, scripts[0]).state, scripts[1..])
  }

  lemma {:induction false} AttemptsAdvance(d: Driver, q: Request, s: State, scripts: seq<seq<Fault>>)
    requires Repeatable(q.isFileset, q.size) && Ready(Resolve(d, q), s)
    ensures Ready(Resolve(d, q), Attempts(d, q, s, scripts))
    ensures Complete(Resolve(d, q), Attempts(d, q, s, scripts)) == Complete(Resolve(d, q), s)
    decreases |scripts|
  {
    if scripts != [] {
      AttemptAdvances(d, q, s, scripts[0]);
      AttemptsAdvance(d, q, CreateVolume(d, q, s, scripts[0]).state, scripts[1..]);
    }
  }

  /**
   Retrying converges: after any attempts with any faults, an undisturbed attempt succeeds with the same volume id
   and the same backend state as if it had been the only one.
   */
  lemma RetriesConverge(d: Driver, q: Request, s: State, scripts: seq<seq<Fault>>)
    requires Repeatable(q.isFileset, q.size)
    requires FrontOk(d, q) && Ready(Resolve(d, q), s)
    ensures CreateVolume(d, q, Attempts(d, q, s, scripts), []) == CreateVolume(d, q, s, [])
    ensures CreateVolume(d, q, s, []) == Ending(Created(VolId(d, q)), Complete(Resolve(d, q), s), [])
  {
    var s' := Attempts(d, q, s, scripts);
    AttemptsAdvance(d, q, s, scripts);
    CleanAttemptSucceeds(d, q, s);
    CleanAttemptSucceeds(d, q, s');
    AttemptAdvances(d, q, s, []);
    AttemptAdvances(d, q, s', []);
  }

  /**
   Creating the same volume again after a success succeeds exactly when the size survives being stored in KiB: for
   any other size the limit that create itself has set no longer matches the request.
   */
  lemma RepeatSucceedsExactly(d: Driver, q: Request, s: State)
    requires FrontOk(d, q) && Ready(Resolve(d, q), s)
    ensures CreateVolume(d, q, CreateVolume(d, q, s, []).state, []).outcome.Created? <==>
      Repeatable(q.isFileset, q.size)
  {
    var v := Resolve(d, q);
    var s' := CreateVolume(d, q, s, []).state;
    CleanAttemptSucceeds(d, q, s);
    CleanAttemptSucceeds(d, q, s');
    AttemptAdvances(d, q, s, []);
    if v.isFileset {
      var limit := s'.filesets[Key(v)].limitKiB;
      StoredPrinted(v.size);
      StoredReadsBack(v.size);
      LimitsAreWholeKiB(if Key(v) in s.filesets then s.filesets[Key(v)].limitKiB else 0);
      assert JunctionFree(v, s');
    }
  }

  /** A volume of 1000 bytes is created once, and refused when the same request is sent again. */
  lemma ThousandBytesNotRepeatable(d: Driver, q: Request, s: State)
    requires FrontOk(d, q) && Ready(Resolve(d, q), s) && q.isFileset && q.size == 1000
    ensures CreateVolume(d, q, s, []).outcome.Created?
    ensures CreateVolume(d, q, CreateVolume(d, q, s, []).state, []).outcome.Failed?
  {
    CleanAttemptSucceeds(d, q, s);
    RepeatSucceedsExactly(d, q, s);
  }

  lemma LimitsAreWholeKiB(limitKiB: Limit)
    ensures LimitBytes(limitKiB) % KIB == 0
  {
    if limitKiB >= 0 {
      var n := limitKiB * KIB;
      assert n % UINT64 == n - UINT64 * (n / UINT64);
      assert UINT64 == KIB * 0x40_0000_0000_0000;
    }
  }
}
