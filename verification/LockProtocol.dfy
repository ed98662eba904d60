/**
 * The promise-chained lock around `state.json`, as a machine whose steps are the points at which
 * concurrent `read`, `update` and `replace` calls on one store instance may interleave.
 */
module LockProtocol {
  import opened Tables

  /** The top-level properties of the stored object; the property values are opaque text. */
  type Doc = map<string, string>

  datatype File = Missing | Corrupt | Stored(doc: Doc)

  /** `updater` maps the current document to the next one, or to `None` when it throws. */
  datatype Op = Read | Update(updater: Doc -> Option<Doc>) | Replace(next: Doc)

  /** Which of the file operations of a call fail with an error other than "no such file". */
  datatype Faults = Faults(read: bool, seed: bool, write: bool)

  datatype Outcome = Value(doc: Doc) | Completed | Threw

  datatype Phase =
    | Waiting                    // awaits the promise it found in `queue`
    | Entered                    // holds the lock, nothing read yet
    | Seeding                    // found no file, about to write the default
    | Loaded(current: Doc)       // about to run the updater
    | Ready(pending: Doc)        // about to rename the temporary file over the target
    | Ending(result: Outcome)    // body finished, `finally` not yet run
    | Done(outcome: Outcome)     // released

  /** `prev` is the promise awaited, `own` the promise this call resolves on release. */
  datatype Call = Call(op: Op, faults: Faults, prev: nat, own: nat, phase: Phase)

  /** Promises are numbered in order of creation; number 0 is the initially resolved one. */
  datatype State = State(file: File, queue: nat, created: nat, resolved: set<nat>, calls: seq<Call>)

  datatype Step = Invoke(op: Op, faults: Faults) | Advance(i: nat)

  function Initial(file: File): State {
    State(file, 0, 0, {0}, [])
  }

  ghost predicate Enabled(s: State, step: Step) {
    match step
    case Invoke(_, _) => true
    case Advance(i) =>
      && i < |s.calls|
      && !s.calls[i].phase.Done?
      && (s.calls[i].phase.Waiting? ==> s.calls[i].prev in s.resolved)
  }

  function AfterLoad(op: Op, doc: Doc): Phase {
    if op.Read? then Ending(Value(doc)) else Loaded(doc)
  }

  /** One step of a task body: the file and the phase it leaves. `fallback` is `defaultValue`. */
  function BodyStep(fallback: Doc, file: File, c: Call): (File, Phase) {
    match c.phase
    case Waiting => (file, Entered)
    case Entered =>
      if c.op.Replace? then (file, Ready(c.op.next))
      else if c.faults.read then (file, Ending(Threw))
      else (match file
            case Missing => (file, Seeding)
            case Corrupt => (file, Ending(Threw))
            case Stored(doc) => (file, AfterLoad(c.op, fallback + doc)))
    case Seeding =>
      if c.faults.seed then (file, Ending(Threw)) else (Stored(fallback), AfterLoad(c.op, fallback))
    case Loaded(doc) =>
      var next := if c.op.Update? then c.op.updater(doc) else None;
      (file, if next.None? then Ending(Threw) else Ready(next.value))
    case Ready(next) =>
      if c.faults.write then (file, Ending(Threw))
      else (Stored(next), Ending(if c.op.Replace? then Completed else Value(next)))
    case Ending(o) => (file, Done(o))
    case Done(o) => (file, Done(o))
  }

  function Apply(fallback: Doc, s: State, step: Step): State {
    match step
    case Invoke(op, faults) =>
      var own := s.created + 1;
      s.(calls := s.calls + [Call(op, faults, s.queue, own, Waiting)], queue := own, created := own)
    case Advance(i) =>
      if i >= |s.calls| then s
      else
        var c := s.calls[i];
        var (file, phase) := BodyStep(fallback, s.file, c);
        s.(file := file,
        calls := s.calls[i := c.(phase := phase)],
        resolved := if c.phase.Ending? then s.resolved + {c.own} else s.resolved)
  }

  /** The states after each step of a schedule; a schedule may only take enabled steps. */
  function Run(fallback: Doc, s: State, steps: seq<Step>): State
    decreases |steps|
  {
    if steps == [] then s else Run(fallback, Apply(fallback, s, steps[0]), steps[1..])
  }

  ghost predicate Schedule(fallback: Doc, s: State, steps: seq<Step>)
    decreases |steps|
  {
    steps != [] ==> Enabled(s, steps[0]) && Schedule(fallback, Apply(fallback, s, steps[0]), steps[1..])
  }

  /* ---------- the same calls, executed one at a time ---------- */

  /** `readUnlocked`: the file it leaves, and the merged document unless it throws. */
  function Load(fallback: Doc, file: File, faults: Faults): (File, Option<Doc>) {
    if faults.read then (file, None)
    else match file
      case Missing => if faults.seed then (file, None) else (Stored(fallback), Some(fallback))
      case Corrupt => (file, None)
      case Stored(doc) => (file, Some(fallback + doc))
  }

  function Serial(fallback: Doc, file: File, op: Op, faults: Faults): (File, Outcome) {
    match op
    case Replace(next) => if faults.write then (file, Threw) else (Stored(next), Completed)
    case Read =>
      var (file', doc) := Load(fallback, file, faults);
      (file', if doc.None? then Threw else Value(doc.value))
    case Update(updater) =>
      var (file', doc) := Load(fallback, file, faults);
      if doc.None? then (file', Threw)
      else
        var next := updater(doc.value);
        if next.None? || faults.write then (file', Threw) else (Stored(next.value), Value(next.value))
  }

  /** The file after the given calls have run alone, in list order. */
  function SerialFile(fallback: Doc, file: File, calls: seq<Call>): File {
    if calls == [] then file
    else
      var n := |calls| - 1;
      Serial(fallback, SerialFile(fallback, file, calls[..n]), calls[n].op, calls[n].faults).0
  }

  lemma {:induction false} SerialFileIgnoresPhases(fallback: Doc, file: File, a: seq<Call>, b: seq<Call>)
    requires |a| == |b|
    requires forall i :: 0 <= i < |a| ==> a[i].op == b[i].op && a[i].faults == b[i].faults
    ensures SerialFile(fallback, file, a) == SerialFile(fallback, file, b)
  {
    if a != [] {
      SerialFileIgnoresPhases(fallback, file, a[..|a| - 1], b[..|b| - 1]);
    }
  }

  /* ---------- the invariant ---------- */

  /** What the head call, entered on file `before`, has done so far. */
  ghost predicate HeadOk(fallback: Doc, before: File, file: File, c: Call) {
    var (after, doc) := Load(fallback, before, c.faults);
    match c.phase
    case Waiting => file == before
    case Entered => file == before
    case Seeding => !c.op.Replace? && !c.faults.read && before.Missing? && file == before
    case Loaded(d) => c.op.Update? && doc == Some(d) && file == after
    case Ready(n) =>
      (match c.op
       case Read => false
       case Replace(next) => n == next && file == before
       case Update(updater) => doc.Some? && updater(doc.value) == Some(n) && file == after)
    case Ending(o) => Serial(fallback, before, c.op, c.faults) == (file, o)
    case Done(_) => false
  }

  /** Exactly the first `k` calls have released; everything behind the head still waits. */
  ghost predicate Layout(s: State, k: nat) {
    && k <= |s.calls|
    && s.created == s.queue == |s.calls|
    && (forall n :: n in s.resolved <==> 0 <= n <= k)
    && (forall i :: 0 <= i < |s.calls| ==> s.calls[i].prev == i && s.calls[i].own == i + 1)
    && (forall i :: 0 <= i < k ==> s.calls[i].phase.Done?)
    && (forall i :: k < i < |s.calls| ==> s.calls[i].phase.Waiting?)
    && (k < |s.calls| ==> !s.calls[k].phase.Done?)
  }

  /** What call `i` returns when all calls run one at a time in call order. */
  ghost function SerialOutcome(fallback: Doc, file0: File, calls: seq<Call>, i: nat): Outcome
    requires i < |calls|
  {
    Serial(fallback, SerialFile(fallback, file0, calls[..i]), calls[i].op, calls[i].faults).1
  }

  ghost predicate Results(fallback: Doc, file0: File, s: State, k: nat)
    requires k <= |s.calls|
  {
    forall i :: 0 <= i < k ==> s.calls[i].phase == Done(SerialOutcome(fallback, file0, s.calls, i))
  }

  ghost predicate FileOk(fallback: Doc, file0: File, s: State, k: nat)
    requires k <= |s.calls|
  {
    var before := SerialFile(fallback, file0, s.calls[..k]);
    if k == |s.calls| then s.file == before else HeadOk(fallback, before, s.file, s.calls[k])
  }

  ghost predicate Inv(fallback: Doc, file0: File, s: State, k: nat) {
    Layout(s, k) && Results(fallback, file0, s, k) && FileOk(fallback, file0, s, k)
  }

  lemma OnlyTheHeadMoves(s: State, k: nat, i: nat)
    requires Layout(s, k)
    ensures Enabled(s, Advance(i)) <==> i == k < |s.calls|
  {
    if i < |s.calls| {
      assert s.calls[i].prev == i;
    }
  }

  lemma HeadStep(fallback: Doc, before: File, file: File, c: Call)
    requires HeadOk(fallback, before, file, c)
    ensures var (file', phase) := BodyStep(fallback, file, c);
            var (after, outcome) := Serial(fallback, before, c.op, c.faults);
            if c.phase.Ending? then after == file' && phase == Done(outcome)
            else HeadOk(fallback, before, file', c.(phase := phase)) && !phase.Done?
  {
  }

  /** Calls keep their operation and faults, so the serial execution of any prefix is unchanged. */
  lemma SamePrefix(fallback: Doc, file0: File, a: seq<Call>, b: seq<Call>, i: nat)
    requires i <= |a| <= |b|
    requires forall j :: 0 <= j < |a| ==> a[j].op == b[j].op && a[j].faults == b[j].faults
    ensures SerialFile(fallback, file0, a[..i]) == SerialFile(fallback, file0, b[..i])
    ensures i < |a| ==> SerialOutcome(fallback, file0, a, i) == SerialOutcome(fallback, file0, b, i)
  {
    SerialFileIgnoresPhases(fallback, file0, a[..i], b[..i]);
  }

  lemma InvokeKeepsInv(fallback: Doc, file0: File, s: State, k: nat, op: Op, faults: Faults)
    requires Inv(fallback, file0, s, k)
    ensures Inv(fallback, file0, Apply(fallback, s, Invoke(op, faults)), k)
  {
    var s' := Apply(fallback, s, Invoke(op, faults));
    forall i | 0 <= i <= k
      ensures i < k ==> s'.calls[i].phase == Done(SerialOutcome(fallback, file0, s'.calls, i))
      ensures SerialFile(fallback, file0, s.calls[..k]) == SerialFile(fallback, file0, s'.calls[..k])
    {
      SamePrefix(fallback, file0, s.calls, s'.calls, i);
      SamePrefix(fallback, file0, s.calls, s'.calls, k);
    }
  }

  lemma HeadKeepsLayout(fallback: Doc, s: State, k: nat)
    requires Layout(s, k) && k < |s.calls|
    requires BodyStep(fallback, s.file, s.calls[k]).1.Done? <==> s.calls[k].phase.Ending?
    ensures Layout(Apply(fallback, s, Advance(k)), if s.calls[k].phase.Ending? then k + 1 else k)
  {
  }

  lemma HeadKeepsResults(fallback: Doc, file0: File, s: State, k: nat)
    requires Inv(fallback, file0, s, k) && k < |s.calls|
    ensures Results(fallback, file0, Apply(fallback, s, Advance(k)), if s.calls[k].phase.Ending? then k + 1 else k)
  {
    var s' := Apply(fallback, s, Advance(k));
    HeadStep(fallback, SerialFile(fallback, file0, s.calls[..k]), s.file, s.calls[k]);
    forall i | 0 <= i <= k
      ensures i < k || s.calls[k].phase.Ending? ==> s'.calls[i].phase == Done(SerialOutcome(fallback, file0, s'.calls, i))
    {
      SamePrefix(fallback, file0, s.calls, s'.calls, i);
    }
  }

  lemma HeadKeepsFile(fallback: Doc, file0: File, s: State, k: nat)
    requires Inv(fallback, file0, s, k) && k < |s.calls|
    requires Layout(Apply(fallback, s, Advance(k)), if s.calls[k].phase.Ending? then k + 1 else k)
    ensures FileOk(fallback, file0, Apply(fallback, s, Advance(k)), if s.calls[k].phase.Ending? then k + 1 else k)
  {
    var s' := Apply(fallback, s, Advance(k));
    HeadStep(fallback, SerialFile(fallback, file0, s.calls[..k]), s.file, s.calls[k]);
    SamePrefix(fallback, file0, s.calls, s'.calls, k);
    if s.calls[k].phase.Ending? {
      assert s'.calls[..k + 1][..k] == s'.calls[..k];
    }
  }

  lemma StepKeepsInv(fallback: Doc, file0: File, s: State, k: nat, step: Step) returns (k': nat)
    requires Inv(fallback, file0, s, k) && Enabled(s, step)
    ensures k <= k' && Inv(fallback, file0, Apply(fallback, s, step), k')
  {
    k' := k;
    match step
    case Invoke(op, faults) =>
      InvokeKeepsInv(fallback, file0, s, k, op, faults);
    case Advance(i) =>
      OnlyTheHeadMoves(s, k, i);
      k' := if s.calls[k].phase.Ending? then k + 1 else k;
      HeadStep(fallback, SerialFile(fallback, file0, s.calls[..k]), s.file, s.calls[k]);
      HeadKeepsLayout(fallback, s, k);
      HeadKeepsResults(fallback, file0, s, k);
      HeadKeepsFile(fallback, file0, s, k);
  }

  lemma {:induction false} RunKeepsInv(fallback: Doc, file0: File, s: State, k: nat, steps: seq<Step>) returns (k': nat)
    requires Inv(fallback, file0, s, k) && Schedule(fallback, s, steps)
    ensures k <= k' && Inv(fallback, file0, Run(fallback, s, steps), k')
    decreases |steps|
  {
    k' := k;
    if steps != [] {
      k' := StepKeepsInv(fallback, file0, s, k, steps[0]);
      k' := RunKeepsInv(fallback, file0, Apply(fallback, s, steps[0]), k', steps[1..]);
    }
  }

  /* ---------- main results ---------- */

  predicate InBody(c: Call) {
    !c.phase.Waiting? && !c.phase.Done?
  }

  /** The file while the body of `c`, entered on `before`, is under way. */
  function FileDuring(fallback: Doc, before: File, c: Call): File {
    match c.phase
    case Loaded(_) => Load(fallback, before, c.faults).0
    case Ready(_) => if c.op.Replace? then before else Load(fallback, before, c.faults).0
    case Ending(_) => Serial(fallback, before, c.op, c.faults).0
    case _ => before
  }

  /** Exactly the first `k` calls have finished, and only the next one can be under way. */
  ghost predicate FinishedFirst(s: State, k: nat) {
    forall i :: 0 <= i < |s.calls| ==> (s.calls[i].phase.Done? <==> i < k) && (InBody(s.calls[i]) ==> i == k)
  }

  /** The file after the first `k` calls, run one at a time, and what the next one has done so far. */
  function FileAfter(fallback: Doc, file0: File, s: State, k: nat): File
    requires k <= |s.calls|
  {
    var before := SerialFile(fallback, file0, s.calls[..k]);
    if k < |s.calls| then FileDuring(fallback, before, s.calls[k]) else before
  }

  lemma FileFollows(fallback: Doc, file0: File, s: State, k: nat)
    requires Inv(fallback, file0, s, k)
    ensures FinishedFirst(s, k) && s.file == FileAfter(fallback, file0, s, k)
  {
  }

  /**
   * Whatever the interleaving: one body at a time, bodies in call order, and every finished call has
   * the outcome of the one-at-a-time execution in call order. In every reachable state the file is
   * what this execution leaves after the finished calls, changed at most by what the one body under
   * way has done to it so far: its read, which may have seeded the file, or its whole effect.
   */
  lemma Linearizable(fallback: Doc, file0: File, steps: seq<Step>)
    requires Schedule(fallback, Initial(file0), steps)
    ensures var s := Run(fallback, Initial(file0), steps);
            && (forall i, j :: 0 <= i < |s.calls| && 0 <= j < |s.calls| && InBody(s.calls[i]) && InBody(s.calls[j]) ==> i == j)
            && (forall i, j :: 0 <= i < j < |s.calls| && !s.calls[j].phase.Waiting? ==> s.calls[i].phase.Done?)
            && (forall i :: 0 <= i < |s.calls| && s.calls[i].phase.Done? ==>
                  s.calls[i].phase.outcome == SerialOutcome(fallback, file0, s.calls, i))
            && (exists k :: 0 <= k <= |s.calls| && FinishedFirst(s, k) && s.file == FileAfter(fallback, file0, s, k))
  {
    var s := Run(fallback, Initial(file0), steps);
    assert Inv(fallback, file0, Initial(file0), 0);
    var k := RunKeepsInv(fallback, file0, Initial(file0), 0, steps);
    FileFollows(fallback, file0, s, k);
  }

  function Work(p: Phase): nat {
    match p
    case Waiting => 6
    case Entered => 5
    case Seeding => 4
    case Loaded(_) => 3
    case Ready(_) => 2
    case Ending(_) => 1
    case Done(_) => 0
  }

  function Remaining(calls: seq<Call>): nat {
    if calls == [] then 0 else Work(calls[0].phase) + Remaining(calls[1..])
  }

  lemma {:induction false} RemainingUpdate(calls: seq<Call>, i: nat, c: Call)
    requires i < |calls|
    ensures Remaining(calls[i := c]) == Remaining(calls) - Work(calls[i].phase) + Work(c.phase)
  {
    if i == 0 {
      assert calls[0 := c][1..] == calls[1..];
    } else {
      assert calls[i := c][1..] == calls[1..][i - 1 := c];
      RemainingUpdate(calls[1..], i - 1, c);
    }
  }

  lemma AdvanceWorks(fallback: Doc, s: State, i: nat)
    requires Enabled(s, Advance(i))
    ensures Remaining(Apply(fallback, s, Advance(i)).calls) < Remaining(s.calls)
  {
    var c := s.calls[i];
    RemainingUpdate(s.calls, i, c.(phase := BodyStep(fallback, s.file, c).1));
  }

  /**
   * No call is ever stuck: in every reachable state the oldest unfinished call can move, only it
   * can, and any continuation in which bodies finish and no further call arrives ends within
   * `Remaining` steps, with every call released once no step is left.
   */
  lemma {:induction false} NoCallIsStuck(fallback: Doc, file0: File, steps: seq<Step>, more: seq<Step>)
    requires Schedule(fallback, Initial(file0), steps)
    requires var s := Run(fallback, Initial(file0), steps);
             Schedule(fallback, s, more) && forall step :: step in more ==> step.Advance?
    ensures var s := Run(fallback, Initial(file0), steps);
            var s' := Run(fallback, s, more);
            && |more| <= Remaining(s.calls)
            && ((forall i: nat :: !Enabled(s', Advance(i))) ==> forall c :: c in s'.calls ==> c.phase.Done?)
            && (forall k: nat :: k < |s.calls| ==>
                  (Enabled(s, Advance(k)) <==> !s.calls[k].phase.Done? && forall i :: 0 <= i < k ==> s.calls[i].phase.Done?))
  {
    var s := Run(fallback, Initial(file0), steps);
    assert Inv(fallback, file0, Initial(file0), 0);
    var k := RunKeepsInv(fallback, file0, Initial(file0), 0, steps);
    forall i: nat | i < |s.calls|
      ensures Enabled(s, Advance(i)) <==> i == k
    {
      OnlyTheHeadMoves(s, k, i);
    }
    AdvancesAreBounded(fallback, file0, s, k, more);
    var s' := Run(fallback, s, more);
    var k' := RunKeepsInv(fallback, file0, s, k, more);
    OnlyTheHeadMoves(s', k', k');
    if forall i: nat :: !Enabled(s', Advance(i)) {
      assert !Enabled(s', Advance(k'));
    }
  }

  lemma {:induction false} AdvancesAreBounded(fallback: Doc, file0: File, s: State, k: nat, more: seq<Step>)
    requires Inv(fallback, file0, s, k) && Schedule(fallback, s, more)
    requires forall step :: step in more ==> step.Advance?
    ensures |more| <= Remaining(s.calls)
    decreases |more|
  {
    if more != [] {
      assert more[0] in more;
      AdvanceWorks(fallback, s, more[0].i);
      var k' := StepKeepsInv(fallback, file0, s, k, more[0]);
      AdvancesAreBounded(fallback, file0, Apply(fallback, s, more[0]), k', more[1..]);
    }
  }

  /**
   * A throwing updater leaves every property a reader can see unchanged. It changes the file itself
   * exactly when no file existed, because reading then wrote the default.
   */
  lemma ThrowingUpdate(fallback: Doc, file: File, updater: Doc -> Option<Doc>, faults: Faults)
    requires !faults.read && !faults.seed && !file.Corrupt?
    requires updater(Load(fallback, file, faults).1.value).None?
    ensures var (file', outcome) := Serial(fallback, file, Update(updater), faults);
            && outcome == Threw
            && (file' != file <==> file.Missing?)
            && Load(fallback, file', faults).1 == Load(fallback, file, faults).1
  {
    assert fallback + fallback == fallback;
  }

  /* ---------- the store object ---------- */

  /** One store instance; each method is one uninterrupted stretch of its code. */
  class JsonFileStore {
    const defaultValue: Doc
    var file: File
    var queue: nat
    var created: nat
    var resolved: set<nat>
    var calls: seq<Call>

    ghost function View(): State
      reads this
    {
      State(file, queue, created, resolved, calls)
    }

    constructor (defaultValue: Doc, file: File)
      ensures View() == Initial(file) && this.defaultValue == defaultValue
    {
      this.defaultValue := defaultValue;
      this.file := file;
      queue, created, resolved, calls := 0, 0, {0}, [];
    }

    /** `withLock` up to its first `await`: queue a new promise behind the previous one. */
    method WithLock(op: Op, faults: Faults)
      modifies this
      ensures View() == Apply(defaultValue, old(View()), Invoke(op, faults))
    {
      var previous := queue;
      created := created + 1;
      queue := created;
      calls := calls + [Call(op, faults, previous, queue, Waiting)];
    }

    method SetPhase(i: nat, phase: Phase)
      requires i < |calls|
      modifies this`calls
      ensures calls == old(calls)[i := old(calls)[i].(phase := phase)]
    {
      calls := calls[i := calls[i].(phase := phase)];
    }

    /** `await previous` returns. */
    method Enter(i: nat)
      requires i < |calls| && calls[i].phase.Waiting? && calls[i].prev in resolved
      modifies this
      ensures View() == Apply(defaultValue, old(View()), Advance(i))
    {
      SetPhase(i, Entered);
    }

    /** `readUnlocked`: read the file; a missing one is seeded by the next step. */
    method ReadFile(i: nat)
      requires i < |calls| && calls[i].phase.Entered?
      modifies this
      ensures View() == Apply(defaultValue, old(View()), Advance(i))
    {
      var c := calls[i];
      if c.op.Replace? {
        SetPhase(i, Ready(c.op.next));
      } else if c.faults.read || file.Corrupt? {
        SetPhase(i, Ending(Threw));
      } else if file.Missing? {
        SetPhase(i, Seeding);
      } else {
        var merged := defaultValue + file.doc;
        SetPhase(i, if c.op.Read? then Ending(Value(merged)) else Loaded(merged));
      }
    }

    /** The write of the default value after "no such file". */
    method SeedFile(i: nat)
      requires i < |calls| && calls[i].phase.Seeding?
      modifies this
      ensures View() == Apply(defaultValue, old(View()), Advance(i))
    {
      if calls[i].faults.seed {
        SetPhase(i, Ending(Threw));
      } else {
        file := Stored(defaultValue);
        SetPhase(i, if calls[i].op.Read? then Ending(Value(defaultValue)) else Loaded(defaultValue));
      }
    }

    method RunUpdater(i: nat)
      requires i < |calls| && calls[i].phase.Loaded? && calls[i].op.Update?
      modifies this
      ensures View() == Apply(defaultValue, old(View()), Advance(i))
    {
      var next := calls[i].op.updater(calls[i].phase.current);
      SetPhase(i, if next.None? then Ending(Threw) else Ready(next.value));
    }

    /** `writeUnlocked`: the rename either replaces the whole file or fails. */
    method WriteFile(i: nat)
      requires i < |calls| && calls[i].phase.Ready?
      modifies this
      ensures View() == Apply(defaultValue, old(View()), Advance(i))
    {
      var next := calls[i].phase.pending;
      if calls[i].faults.write {
        SetPhase(i, Ending(Threw));
      } else {
        file := Stored(next);
        SetPhase(i, Ending(if calls[i].op.Replace? then Completed else Value(next)));
      }
    }

    /** The `finally` block: resolve the own promise, whether the body returned or threw. */
    method Release(i: nat)
      requires i < |calls| && calls[i].phase.Ending?
      modifies this
      ensures View() == Apply(defaultValue, old(View()), Advance(i))
    {
      resolved := resolved + {calls[i].own};
      SetPhase(i, Done(calls[i].phase.result));
    }
  }
}
