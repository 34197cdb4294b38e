/**
 One whole reconcile of a profile with no other step in between, the clock moving on with each of
 its steps: a function of the store, the API server's answers and the requests that fail. It is a
 run of the worker's own steps, so it keeps what every run keeps.
 */
module Reconciles {
  import opened Kube
  import opened Profiles
  import opened Protocol
  import opened Safety

  /** The requests of one reconcile that fail for another reason than what the store holds. */
  datatype Faults = Faults(
    finalizer: bool,
    template: bool,
    namespace: bool,
    ensure: set<string>,
    status: bool,
    podList: bool,
    removal: bool)

  const NO_FAULTS := Faults(false, false, false, {}, false, false, false)

  /** handleDeletion: the list, then the update. */
  function DeletionStep(s: State, key: Key, faults: Faults): State {
    if !Clear(s, key) || faults.podList then s
    else
      var listed := Tick(WithWorker(s, Removing(key, s.profiles[key], s.clock)));
      if faults.removal then Tick(WithWorker(listed, Idle)) else Tick(RemoveFinalizerStep(listed))
  }

  /** A read resolveSpec needs fails, or the patch of a refusal does. */
  predicate ResolveFails(s: State, faults: Faults)
    requires s.worker.Resolving?
  {
    var read := s.worker.read;
    && read.spec.templateRef.Some?
    && (|| faults.template
        || (faults.namespace && read.spec.templateRef.value in s.env.templates
            && s.env.templates[read.spec.templateRef.value].namespaceSelector.Some?)
        || (faults.status && ResolveSpec(read, s.env.templates, LabelsOf(s, s.worker.key.namespace), s.clock).Refused?))
  }

  /** From the claim templates on. */
  function FromEnsure(s: State, answers: Answers, faults: Faults): State
    requires s.worker.Ensuring?
    decreases |s.worker.spec.deviceClaims| - s.worker.done
  {
    if s.worker.done >= |s.worker.spec.deviceClaims| then
      if faults.status then Tick(WithWorker(s, Idle)) else Tick(FinishStep(s, answers))
    else if s.worker.spec.deviceClaims[s.worker.done].name in faults.ensure then Tick(WithWorker(s, Idle))
    else
      var t := Tick(EnsureStep(s));
      if t.worker.Ensuring? then FromEnsure(t, answers, faults) else t
  }

  function FromResolve(s: State, answers: Answers, faults: Faults): State
    requires s.worker.Resolving?
  {
    if ResolveFails(s, faults) then Tick(WithWorker(s, Idle))
    else
      var t := Tick(ResolveStep(s));
      if t.worker.Ensuring? then FromEnsure(t, answers, faults) else t
  }

  /** The whole reconcile. */
  function Undisturbed(s: State, key: Key, answers: Answers, faults: Faults): State {
    if key !in s.profiles then s
    else if s.profiles[key].deleting then DeletionStep(s, key, faults)
    else if !s.profiles[key].finalizer && faults.finalizer then s
    else FromResolve(Tick(Begun(s, key)), answers, faults)
  }

  /** The worker's own steps; it aborts only on a failed request. */
  predicate Own(a: Step, faults: Faults) {
    || a.Begin? || a.Resolve? || a.Ensure? || a.Finish? || a.ListGated? || a.RemoveFinalizer?
    || (a.Abort? && faults != NO_FAULTS)
  }

  ghost predicate AllOwn(steps: seq<Step>, faults: Faults) {
    forall a :: a in steps ==> Own(a, faults)
  }

  // ---- the steps behind it ----

  lemma AbortNext(s: State)
    ensures Next(s, Abort) == Tick(WithWorker(s, Idle))
  {
  }

  lemma ResolveNext(s: State)
    requires s.worker.Resolving?
    ensures Next(s, Resolve) == Tick(ResolveStep(s))
  {
  }

  lemma EnsureNext(s: State)
    requires s.worker.Ensuring? && s.worker.done < |s.worker.spec.deviceClaims|
    ensures Next(s, Ensure) == Tick(EnsureStep(s))
  {
  }

  lemma FinishNext(s: State, answers: Answers)
    requires s.worker.Ensuring? && s.worker.done >= |s.worker.spec.deviceClaims|
    ensures Next(s, Finish(answers)) == Tick(FinishStep(s, answers))
  {
  }

  lemma BeginNext(s: State, key: Key)
    requires s.worker.Idle? && key in s.profiles && !s.profiles[key].deleting
    ensures Next(s, Begin(key)) == Tick(Begun(s, key))
  {
  }

  lemma ListNext(s: State, key: Key)
    requires Clear(s, key)
    ensures Next(s, ListGated(key)) == Tick(WithWorker(s, Removing(key, s.profiles[key], s.clock)))
  {
  }

  lemma RemoveNext(s: State)
    requires s.worker.Removing?
    ensures Next(s, RemoveFinalizer) == Tick(RemoveFinalizerStep(s))
  {
  }

  lemma OneStep(s: State, a: Step)
    ensures Run(s, [a]) == Next(s, a)
  {
    RunSnoc(s, [], a);
    assert [] + [a] == [a];
  }

  lemma {:induction false} FromEnsureIsRun(s: State, answers: Answers, faults: Faults) returns (steps: seq<Step>)
    requires s.worker.Ensuring?
    ensures FromEnsure(s, answers, faults) == Run(s, steps) && AllOwn(steps, faults)
    decreases |s.worker.spec.deviceClaims| - s.worker.done
  {
    if s.worker.done >= |s.worker.spec.deviceClaims| {
      FinishNext(s, answers);
      AbortNext(s);
      steps := [if faults.status then Abort else Finish(answers)];
      OneStep(s, steps[0]);
    } else if s.worker.spec.deviceClaims[s.worker.done].name in faults.ensure {
      AbortNext(s);
      steps := [Abort];
      OneStep(s, Abort);
    } else {
      EnsureNext(s);
      var t := Tick(EnsureStep(s));
      if t.worker.Ensuring? {
        var tail := FromEnsureIsRun(t, answers, faults);
        steps := [Ensure] + tail;
        RunCons(s, Ensure, tail);
      } else {
        steps := [Ensure];
        OneStep(s, Ensure);
      }
    }
  }

  lemma FromResolveIsRun(s: State, answers: Answers, faults: Faults) returns (steps: seq<Step>)
    requires s.worker.Resolving?
    ensures FromResolve(s, answers, faults) == Run(s, steps) && AllOwn(steps, faults)
  {
    if ResolveFails(s, faults) {
      AbortNext(s);
      steps := [Abort];
      OneStep(s, Abort);
    } else {
      ResolveNext(s);
      var t := Tick(ResolveStep(s));
      if t.worker.Ensuring? {
        var tail := FromEnsureIsRun(t, answers, faults);
        steps := [Resolve] + tail;
        RunCons(s, Resolve, tail);
      } else {
        steps := [Resolve];
        OneStep(s, Resolve);
      }
    }
  }

  lemma DeletionIsRun(s: State, key: Key, faults: Faults) returns (steps: seq<Step>)
    ensures DeletionStep(s, key, faults) == Run(s, steps) && AllOwn(steps, faults)
  {
    if !Clear(s, key) || faults.podList {
      steps := [];
    } else {
      var listed := Tick(WithWorker(s, Removing(key, s.profiles[key], s.clock)));
      ListNext(s, key);
      AbortNext(listed);
      RemoveNext(listed);
      var last := if faults.removal then Abort else RemoveFinalizer;
      steps := [ListGated(key)] + [last];
      RunCons(s, ListGated(key), [last]);
      OneStep(listed, last);
    }
  }

  /** Every undisturbed reconcile is a run of the worker's own steps; with no failed request, without an abort. */
  lemma UndisturbedIsRun(s: State, key: Key, answers: Answers, faults: Faults) returns (steps: seq<Step>)
    requires s.worker.Idle?
    ensures Undisturbed(s, key, answers, faults) == Run(s, steps) && AllOwn(steps, faults)
  {
    if key !in s.profiles || (!s.profiles[key].deleting && !s.profiles[key].finalizer && faults.finalizer) {
      steps := [];
    } else if s.profiles[key].deleting {
      steps := DeletionIsRun(s, key, faults);
    } else {
      BeginNext(s, key);
      var tail := FromResolveIsRun(Tick(Begun(s, key)), answers, faults);
      steps := [Begin(key)] + tail;
      RunCons(s, Begin(key), tail);
    }
  }

  // ---- what it keeps ----

  lemma {:induction false} FromEnsureIdles(s: State, answers: Answers, faults: Faults)
    requires s.worker.Ensuring?
    ensures FromEnsure(s, answers, faults).worker.Idle?
    decreases |s.worker.spec.deviceClaims| - s.worker.done
  {
    if s.worker.done < |s.worker.spec.deviceClaims| {
      var t := Tick(EnsureStep(s));
      if t.worker.Ensuring? {
        FromEnsureIdles(t, answers, faults);
      }
    }
  }

  lemma FromResolveIdles(s: State, answers: Answers, faults: Faults)
    requires s.worker.Resolving?
    ensures FromResolve(s, answers, faults).worker.Idle?
  {
    var t := Tick(ResolveStep(s));
    if t.worker.Ensuring? {
      FromEnsureIdles(t, answers, faults);
    } else {
      assert t.worker.Idle? by {
        match ResolveSpec(s.worker.read, s.env.templates, LabelsOf(s, s.worker.key.namespace), s.clock)
        case Aborted =>
        case Refused(stored) =>
        case Resolved(mem, spec) =>
      }
    }
  }

  /** A whole reconcile keeps the invariant and leaves the worker idle, whatever fails on the way. */
  lemma UndisturbedKeepsInv(s: State, key: Key, answers: Answers, faults: Faults)
    requires s.worker.Idle?
    ensures Undisturbed(s, key, answers, faults).worker.Idle?
    ensures Inv(s) ==> Inv(Undisturbed(s, key, answers, faults))
  {
    var steps := UndisturbedIsRun(s, key, answers, faults);
    if Inv(s) {
      RunKeepsInv(s, steps);
    }
    if key in s.profiles && !s.profiles[key].deleting && (s.profiles[key].finalizer || !faults.finalizer) {
      FromResolveIdles(Tick(Begun(s, key)), answers, faults);
    }
  }
}
