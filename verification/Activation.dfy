/** The one place where a learned preference changes what runs: a gate that a dispatch may open, and a kill that nothing
    undoes. A digest is injective, so it stands for the controller state it was computed from. */
module Activation {
  import Learner

  datatype Option<+T> = None | Some(value: T)

  /** What the learner recommends for this action, by workload class. Evidence may change without changing a verdict. */
  datatype Known = Known(verdicts: map<string, Learner.Recommendation>, stamp: int)

  function Verdict(known: Known, workload: string): Learner.Recommendation {
    if workload in known.verdicts then known.verdicts[workload] else Learner.NO_STATE
  }

  predicate Qualifies(known: Known, workload: string) {
    Verdict(known, workload).state == Learner.CandidateQualified
  }

  /** Why a record says what it says. */
  datatype Reason = Disabled | KilledOff | Requalification | IneligibleRoute | NotQualified | QualifiedHere

  /** What one dispatch was allowed to do. */
  datatype Record = Record(candidate: bool, state: Learner.State, count: nat, digest: Option<Known>, reason: Reason,
                           workload: string)

  datatype Shape = Shape(workload: string, route: string)

  const ELIGIBLE_ROUTE := "interactive"

  /** `_build_record`: the record of a dispatch on this controller state. */
  function BuildRecord(known: Known, shape: Shape): Record {
    var verdict := Verdict(known, shape.workload);
    if shape.route != ELIGIBLE_ROUTE
    then Record(false, verdict.state, verdict.count, Some(known), IneligibleRoute, shape.workload)
    else if verdict.state != Learner.CandidateQualified
    then Record(false, verdict.state, verdict.count, Some(known), NotQualified, shape.workload)
    else Record(true, verdict.state, verdict.count, Some(known), QualifiedHere, shape.workload)
  }

  /** A dispatch may run the candidate exactly on the eligible route, for a workload class whose verdict is qualified; a
      class that nothing is known of has none. */
  lemma CandidateNeeds(known: Known, shape: Shape)
    ensures BuildRecord(known, shape).candidate <==>
            && shape.route == "interactive" && shape.workload in known.verdicts
            && known.verdicts[shape.workload].state == Learner.CandidateQualified
    ensures BuildRecord(known, shape).workload == shape.workload && BuildRecord(known, shape).digest == Some(known)
  {
  }

  function Refusal(reason: Reason, workload: string): Record {
    Record(false, Learner.Unknown, 0, None, reason, workload)
  }

  class VariantGate {
    var active: bool
    var killed: bool

    constructor ()
      ensures !active && !killed
    {
      active, killed := false, false;
    }

    method Open()
      modifies this
      ensures killed == old(killed) && active == (old(active) || !killed)
    {
      if !killed {
        active := true;
      }
    }

    method Close()
      modifies this
      ensures killed == old(killed) && !active
    {
      active := false;
    }

    method Kill()
      modifies this
      ensures killed && !active
    {
      active, killed := false, true;
    }
  }

  /** The learner as its owner changes it, and the monitor as it watches. */
  class Controller {
    var known: Known

    constructor (known: Known)
      ensures this.known == known
    {
      this.known := known;
    }
  }

  class Monitor {
    var requalificationRequired: bool

    constructor ()
      ensures !requalificationRequired
    {
      requalificationRequired := false;
    }
  }

  /** The kill record beside the state file. It survives the process, and this code never removes it. `writable` is
      whether the file system would take it now. */
  class KillRecord {
    var present: bool
    var writable: bool

    constructor (writable: bool)
      ensures !present && this.writable == writable
    {
      present, this.writable := false, writable;
    }

    method Write() returns (raised: bool)
      modifies this`present
      ensures raised <==> !writable
      ensures present <==> old(present) || writable
    {
      raised := !writable;
      present := present || writable;
    }
  }

  /** One dispatch: whether the candidate ran, and whether a kill came before it, in this process or in one that
      recorded it. */
  datatype Dispatch = Dispatch(candidate: bool, killed: bool)

  /** Every dispatch of a state path, across processes. */
  class History {
    ghost var dispatches: seq<Dispatch>

    constructor ()
      ensures dispatches == []
    {
      dispatches := [];
    }
  }

  class LearnedDispatchActivation {
    const learner: Controller?
    const monitor: Monitor?
    const file: KillRecord?
    const fits: bool
    const history: History
    var enabled: bool
    var gate: VariantGate?
    var records: map<Shape, Record>
    var digest: Option<Known>
    /** A kill happened in this process, or was on record when it started. */
    ghost var killed: bool

    /** A kill record that is there, readable or not, outranks the caller's wish. `fits` is every admission axis that is
        fixed for this runtime. */
    constructor (learner: Controller?, monitor: Monitor?, file: KillRecord?, fits: bool, enabled: bool,
                 history: History)
      requires Honest(history)
      ensures Valid() && CacheSound() && gate == null && records == map[] && this.history == history
      ensures killed <==> file != null && file.present
      ensures this.learner == learner && this.monitor == monitor && this.file == file && this.fits == fits
      ensures this.enabled == (enabled && (file == null || !file.present))
    {
      this.learner, this.monitor, this.file, this.fits := learner, monitor, file, fits;
      this.history := history;
      this.enabled := enabled && (file == null || !file.present);
      gate, records, digest := null, map[], None;
      killed := file != null && file.present;
    }

    /** The gate is never open where a dispatch could not have opened it, and no dispatch after a kill ran the
        candidate. */
    ghost predicate Valid()
      reads this, gate, history
    {
      && Honest(history) && (killed ==> !enabled)
      && (gate != null ==> learner != null)
      && (!enabled && gate != null ==> gate.killed)
      && (gate != null && gate.killed ==> !gate.active && !enabled)
    }

    /** Every cached record is what would be built from the state whose digest is remembered. */
    ghost predicate CacheSound()
      reads this
    {
      forall shape :: shape in records ==> digest.Some? && records[shape] == BuildRecord(digest.value, shape)
    }

    predicate Open()
      reads this, gate
    {
      gate != null && gate.active
    }

    /** A dispatch looks at the learner: something is installed, nothing is killed, and the monitor does not object. */
    predicate Serving()
      reads this, gate, monitor
    {
      enabled && gate != null && learner != null && !gate.killed
        && (monitor == null || !monitor.requalificationRequired)
    }

    /** `admit`: the first axis that fails decides. */
    predicate Admitted()
      reads this, learner
    {
      enabled && learner != null && fits && exists w :: w in learner.known.verdicts && Qualifies(learner.known, w)
    }

    /** `prepare`, and `install_on` where the installation succeeds: a new gate, shut, on the current state. The records
        of an earlier state stay, so the cache is sound afterwards exactly when it was empty or the state is the
        same. */
    method Prepare() returns (admitted: bool)
      requires Valid()
      modifies this
      ensures Valid() && enabled == old(enabled) && admitted == old(Admitted())
      ensures records == old(records) && killed == old(killed)
      ensures if admitted then fresh(gate) && !gate.active && digest == Some(learner.known)
              else gate == old(gate) && digest == old(digest)
      ensures admitted && old(CacheSound()) ==>
                (CacheSound() <==> old(records) == map[] || old(digest) == Some(learner.known))
      ensures !admitted && old(CacheSound()) ==> CacheSound()
    {
      var qualified := false;
      if learner != null {
        qualified := AnyQualified(learner.known);
      }
      admitted := enabled && learner != null && fits && qualified;
      if admitted {
        gate := new VariantGate();
        digest := Some(learner.known);
        StaleDigests(learner.known);
      }
    }

    /** A record carries the digest it was built on. */
    lemma StaleDigests(known: Known)
      ensures forall a: Known, s: Shape :: BuildRecord(a, s).digest == Some(a)
    {
    }

    method AnyQualified(known: Known) returns (any: bool)
      ensures any <==> exists w :: w in known.verdicts && Qualifies(known, w)
    {
      var rest := known.verdicts.Keys;
      any := false;
      while rest != {}
        invariant rest <= known.verdicts.Keys && !any
        invariant forall w :: w in known.verdicts && w !in rest ==> !Qualifies(known, w)
        decreases |rest|
      {
        var w :| w in rest;
        if Qualifies(known, w) {
          return true;
        }
        rest := rest - {w};
      }
    }

    /** `kill`: shut, and remembered beside the state. The process stays killed whatever happens; the record is there
        afterwards exactly if it was there or could be written. */
    method Kill() returns (raised: bool)
      requires Valid()
      modifies this, gate, file
      ensures Valid() && CacheSound() && !enabled && killed && !Open() && gate == old(gate)
      ensures raised <==> file != null && !file.writable
      ensures file != null ==> (file.present <==> old(file.present) || file.writable)
      ensures file != null ==> file.writable == old(file.writable)
    {
      if gate != null {
        gate.Kill();
      }
      records := map[];
      enabled, killed := false, true;
      raised := false;
      if file != null {
        raised := file.Write();
      }
    }

    /** `for_dispatch`: the gate is open for the dispatch about to run exactly when the record says candidate. While the
        cache is sound, the record is the one that the current state gives. */
    method ForDispatch(shape: Shape) returns (raised: bool, record: Record)
      requires Valid()
      modifies this, gate, file, history
      ensures Valid() && gate == old(gate) && (!old(enabled) ==> !enabled)
      ensures Open() <==> !raised && record.candidate
      ensures history.dispatches == old(history.dispatches) + [Dispatch(!raised && record.candidate, old(killed))]
      ensures killed <==> old(killed) || (old(enabled) && !enabled)
      ensures old(CacheSound()) ==> CacheSound()
      ensures !raised && record.candidate ==>
        && enabled && old(enabled) && learner != null && (monitor == null || !monitor.requalificationRequired)
        && digest == Some(learner.known) && shape in records && record == records[shape]
      ensures !raised && record.candidate && old(CacheSound()) ==>
                record == BuildRecord(learner.known, shape) && Qualifies(learner.known, shape.workload)
      ensures !raised && record.candidate && old(CacheSound()) ==>
        && shape.route == "interactive" && shape.workload in learner.known.verdicts
        && learner.known.verdicts[shape.workload].state == Learner.CandidateQualified
      ensures old(Serving()) && old(digest) == Some(learner.known) ==>
        !raised && record == if shape in old(records) then old(records)[shape] else BuildRecord(learner.known, shape)
      ensures old(Serving()) && old(digest) != Some(learner.known) ==>
        if old(digest).Some? && !Qualifies(learner.known, shape.workload) then killed && !enabled
        else !raised && record == BuildRecord(learner.known, shape)
      ensures !old(Serving()) ==> !raised && enabled == old(enabled) && records == old(records) && digest == old(digest)
      ensures file != null ==>
        (old(file.present) ==> file.present) && (file.present ==> old(file.present) || killed)
          && file.writable == old(file.writable)
      ensures file != null && old(enabled) && !enabled ==> (file.present <==> old(file.present) || file.writable)
    {
      ghost var before := killed;
      raised := false;
      if !enabled || gate == null || learner == null {
        record := Refusal(Disabled, shape.workload);
      } else if gate.killed {
        record := Refusal(KilledOff, shape.workload);
      } else if monitor != null && monitor.requalificationRequired {
        if gate.active {
          gate.Close();
        }
        record := Refusal(Requalification, shape.workload);
      } else if digest != Some(learner.known) && digest.Some? && !Qualifies(learner.known, shape.workload) {
        raised := Kill();
        record := Refusal(KilledOff, shape.workload);
      } else {
        if digest != Some(learner.known) {
          records := map[];
          digest := Some(learner.known);
        }
        if shape in records {
          record := records[shape];
        } else {
          record := BuildRecord(learner.known, shape);
          records := records[shape := record];
        }
        if record.candidate {
          if !gate.active {
            gate.Open();
          }
        } else if gate.active {
          gate.Close();
        }
      }
      history.dispatches := history.dispatches + [Dispatch(!raised && record.candidate, before)];
    }

    /** `after_dispatch`: nothing, or a kill. */
    method AfterDispatch(record: Record, fallbacks: nat, correctnessErrors: nat) returns (raised: bool)
      requires Valid()
      modifies this, gate, file
      ensures Valid() && gate == old(gate) && (!old(enabled) ==> !enabled)
      ensures record.candidate && fallbacks + correctnessErrors > 0 ==>
                && killed && !enabled && !Open() && (raised <==> file != null && !file.writable)
                && (file != null ==> (file.present <==> old(file.present) || old(file.writable)))
      ensures !record.candidate || fallbacks + correctnessErrors == 0 ==>
                && !raised && killed == old(killed) && enabled == old(enabled) && Open() == old(Open())
                && records == old(records) && digest == old(digest)
                  && (file != null ==> file.present == old(file.present))
      ensures old(CacheSound()) ==> CacheSound()
    {
      if !record.candidate || fallbacks + correctnessErrors == 0 {
        return false;
      }
      raised := Kill();
    }
  }

  /** No dispatch after a kill ran the candidate. */
  ghost predicate Honest(history: History)
    reads history
  {
    forall i :: 0 <= i < |history.dispatches| ==> history.dispatches[i].killed ==> !history.dispatches[i].candidate
  }

  /** A kill survives the process exactly if its record was there or could be written: a layer that starts after it on
      the same state path is enabled, as its caller wishes, in all other cases. */
  method KillThenRestart(layer: LearnedDispatchActivation, wish: bool)
      returns (raised: bool, next: LearnedDispatchActivation)
    requires layer.Valid()
    modifies layer, layer.gate, layer.file
    ensures !layer.enabled && fresh(next) && next.Valid() && next.CacheSound() && next.gate == null
            && next.records == map[]
    ensures next.learner == layer.learner && next.monitor == layer.monitor && next.file == layer.file
    ensures next.fits == layer.fits && next.history == layer.history
    ensures raised <==> layer.file != null && !old(layer.file.writable)
    ensures next.enabled <==> wish && (layer.file == null || !(old(layer.file.present) || old(layer.file.writable)))
  {
    raised := layer.Kill();
    next := new LearnedDispatchActivation(layer.learner, layer.monitor, layer.file, layer.fits, wish, layer.history);
  }

  /** A kill whose record could not be written: after a restart the candidate runs again. */
  method UnwrittenKill() returns (raised: bool, record: Record, next: LearnedDispatchActivation)
    ensures raised && record.candidate && next.Open()
  {
    var qualified := Learner.Recommendation(Learner.CandidateQualified, true, Learner.None, 3, Learner.Qualified);
    var learner := new Controller(Known(map["a" := qualified], 0));
    var history := new History();
    var file := new KillRecord(false);
    var layer := new LearnedDispatchActivation(learner, null, file, true, true, history);
    raised, next := KillThenRestart(layer, true);
    assert "a" in learner.known.verdicts && Qualifies(learner.known, "a");
    var admitted := next.Prepare();
    assert next.Serving();
    var failed;
    failed, record := next.ForDispatch(Shape("a", ELIGIBLE_ROUTE));
  }

  /** The cache is not always sound: after a second `prepare` on a changed state, a record of the old one is served. The
      workload no longer qualifies, and yet it is a candidate and the gate is open. */
  method StaleRecord() returns (layer: LearnedDispatchActivation, record: Record)
    ensures layer.learner != null && !Qualifies(layer.learner.known, "a")
    ensures record.candidate && layer.Open() && !BuildRecord(layer.learner.known, Shape("a", ELIGIBLE_ROUTE)).candidate
  {
    var qualified := Learner.Recommendation(Learner.CandidateQualified, true, Learner.None, 3, Learner.Qualified);
    var collecting := Learner.Recommendation(Learner.Collecting, false, Learner.None, 4, Learner.Uncertain);
    var learner := new Controller(Known(map["a" := qualified, "b" := qualified], 0));
    var history := new History();
    layer := new LearnedDispatchActivation(learner, null, null, true, true, history);
    assert "b" in learner.known.verdicts && Qualifies(learner.known, "b");
    var admitted := layer.Prepare();
    assert layer.Serving();
    var raised;
    raised, record := layer.ForDispatch(Shape("a", ELIGIBLE_ROUTE));
    assert record.candidate;
    learner.known := Known(map["a" := collecting, "b" := qualified], 1);
    assert "b" in learner.known.verdicts && Qualifies(learner.known, "b");
    admitted := layer.Prepare();
    assert layer.Serving();
    raised, record := layer.ForDispatch(Shape("a", ELIGIBLE_ROUTE));
  }

  /** Dispatches, evidence, the monitor, requalifications, anomalies, kills and restarts in any order: no dispatch after
      a kill, in the same process or recorded by an earlier one, runs the candidate. */
  method Lifetimes(steps: nat, learner: Controller, monitor: Monitor, file: KillRecord, fits: bool, enabled: bool,
                   history: History)
    requires Honest(history)
    modifies learner, monitor, file, history
    ensures Honest(history) && old(history.dispatches) <= history.dispatches
    ensures old(file.present) ==> file.present
  {
    var layer := new LearnedDispatchActivation(learner, monitor, file, fits, enabled, history);
    var last := Refusal(Disabled, "");
    for i := 0 to steps
      invariant fresh(layer) && layer.Valid() && layer.learner == learner && layer.monitor == monitor
                && layer.file == file
      invariant layer.history == history && (layer.gate != null ==> fresh(layer.gate))
      invariant old(history.dispatches) <= history.dispatches
      invariant old(file.present) ==> file.present
      invariant file.present ==> layer.killed
    {
      if
      case true =>
        learner.known := *;
      case true =>
        monitor.requalificationRequired := *;
      case true =>
        file.writable := *;
      case true =>
        var admitted := layer.Prepare();
      case true =>
        layer := new LearnedDispatchActivation(learner, monitor, file, fits, enabled, history);
      case true =>
        var raised := layer.Kill();
      case true =>
        var shape: Shape := *;
        var raised;
        raised, last := layer.ForDispatch(shape);
      case true =>
        var fallbacks: int, errors: int :| fallbacks >= 0 && errors >= 0;
        var raised := layer.AfterDispatch(last, fallbacks, errors);
    }
  }
}
