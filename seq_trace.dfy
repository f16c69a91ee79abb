/** The sequence-diagram trace recorder (src/Xtricate.Core.Common/Seq/Seq.cs):
    a process-wide stack of caller names, an append-only list of steps, a
    title and an enable flag. Opening a `Seq` scope records a call and pushes
    the callee; disposing it pops and records the return. */
module SeqTrace {
  import opened Nullable

  /** The kinds of diagram step. */
  datatype StepType = Call | CallSelf | Self | Note | Return

  /** One recorded step: an arrow (or a note) from one participant to another. */
  datatype Step = Step(kind: StepType, from: string, to: string, description: Option<string>)

  /** `Stack.Peek` on an empty stack (`InvalidOperationException`). */
  datatype TraceError = EmptyStack

  /** The recorder's whole state. The caller stack is a sequence whose last element is its top. */
  datatype Trace = Trace(froms: seq<string>, steps: seq<Step>, title: Option<string>, enabled: bool, loggingEnabled: bool)

  /** The state before anything is recorded: static field initialisers. */
  const Initial := Trace([], [], None, false, false)

  function Top(froms: seq<string>): string
    requires froms != []
  {
    froms[|froms| - 1]
  }

  /** Opening a scope (the `Seq` constructor). The optional flags are applied
      first; then, when enabled, a non-empty title replaces the old one, a
      call from the current top to `from` is recorded if the stack is not
      empty, and `from` is pushed. */
  function Enter(t: Trace, from: string, description: Option<string>, title: Option<string>,
                 enabled: Option<bool>, loggingEnabled: Option<bool>): (r: Trace)
    ensures |r.froms| == |t.froms| + (if r.enabled then 1 else 0)
    ensures t.steps <= r.steps && |r.steps| <= |t.steps| + 1
    ensures r.title == t.title || r.title == title
  {
    Record(WithFlags(t, enabled, loggingEnabled), from, description, title)
  }

  /** The optional enable flags of the constructor, applied when given. */
  function WithFlags(t: Trace, enabled: Option<bool>, loggingEnabled: Option<bool>): (r: Trace)
    ensures r.froms == t.froms && r.steps == t.steps && r.title == t.title
    ensures enabled.None? ==> r.enabled == t.enabled
    ensures loggingEnabled.None? ==> r.loggingEnabled == t.loggingEnabled
  {
    t.(enabled := if enabled.Some? then enabled.value else t.enabled,
       loggingEnabled := if loggingEnabled.Some? then loggingEnabled.value else t.loggingEnabled)
  }

  /** The rest of the constructor, once the flags are set. */
  function Record(t: Trace, from: string, description: Option<string>, title: Option<string>): (r: Trace)
    ensures r.enabled == t.enabled && r.loggingEnabled == t.loggingEnabled
    ensures !t.enabled ==> r == t
    ensures t.enabled ==> r.froms == t.froms + [from]
  {
    if !t.enabled then t
    else
      var steps := if |t.froms| >= 1
                   then t.steps + [Step(if Top(t.froms) != from then Call else CallSelf, Top(t.froms), from, description)]
                   else t.steps;
      t.(title := if IsNullOrEmpty(title) then t.title else title, steps := steps, froms := t.froms + [from])
  }

  /** What opening a scope does: the flags given are applied; while disabled
      nothing else changes; while enabled the callee is pushed, a non-empty
      title replaces the old one, and exactly one step is appended when there
      was a caller on the stack: a call from that caller to the callee, marked
      as a self-call exactly when the two are the same. */
  lemma EnterEffect(t: Trace, from: string, description: Option<string>, title: Option<string>,
                    enabled: Option<bool>, loggingEnabled: Option<bool>)
    ensures var r := Enter(t, from, description, title, enabled, loggingEnabled);
            && r.enabled == (if enabled.Some? then enabled.value else t.enabled)
            && r.loggingEnabled == (if loggingEnabled.Some? then loggingEnabled.value else t.loggingEnabled)
            && (!r.enabled ==> r.froms == t.froms && r.steps == t.steps && r.title == t.title)
            && (r.enabled ==> |r.froms| == |t.froms| + 1 && r.froms[..|t.froms|] == t.froms && Top(r.froms) == from)
            && (r.enabled ==> r.title == if IsNullOrEmpty(title) then t.title else title)
            && t.steps <= r.steps
            && |r.steps| == |t.steps| + (if r.enabled && t.froms != [] then 1 else 0)
            && (|r.steps| > |t.steps| ==>
                  var s := r.steps[|t.steps|];
                  s.from == Top(t.froms) && s.to == from && s.description == description &&
                  (s.kind == CallSelf <==> Top(t.froms) == from) && (s.kind == Call <==> Top(t.froms) != from))
  {
  }

  /** Closing a scope (`Dispose(bool)`). When disposing while enabled with at
      least two callers on the stack, the top is popped, and a return to the
      new top is recorded unless the popped name is the new top. */
  function Exit(t: Trace, disposing: bool, returnDescription: Option<string>): (r: Trace)
    ensures !disposing || !t.enabled || |t.froms| < 2 ==> r == t
    ensures disposing && t.enabled && |t.froms| >= 2 ==> r.froms == t.froms[..|t.froms| - 1]
    ensures r.title == t.title && r.enabled == t.enabled && r.loggingEnabled == t.loggingEnabled
    ensures t.steps <= r.steps && |r.steps| <= |t.steps| + 1
    ensures |r.steps| > |t.steps| <==> disposing && t.enabled && |t.froms| >= 2 && Top(t.froms) != Top(r.froms)
    ensures |r.steps| > |t.steps| ==> r.steps[|t.steps|] == Step(Return, Top(t.froms), Top(r.froms), returnDescription)
  {
    if !disposing || !t.enabled || |t.froms| < 2 then t
    else
      var from := Top(t.froms);
      var froms := t.froms[..|t.froms| - 1];
      if from != Top(froms)
      then t.(froms := froms, steps := t.steps + [Step(Return, from, Top(froms), returnDescription)])
      else t.(froms := froms)
  }

  /** `Self` and `Note`: while enabled, a step of the given kind from the top
      of the stack to itself; the stack itself is left alone. Peeking at an
      empty stack throws before anything is recorded. */
  function Annotate(t: Trace, kind: StepType, description: Option<string>): (r: Result<Trace, TraceError>)
    ensures r.Failure? <==> t.enabled && t.froms == []
    ensures r.Success? && !t.enabled ==> r.value == t
    ensures r.Success? && t.enabled ==>
              r.value.froms == t.froms && r.value.title == t.title &&
              r.value.enabled == t.enabled && r.value.loggingEnabled == t.loggingEnabled &&
              r.value.steps == t.steps + [Step(kind, Top(t.froms), Top(t.froms), description)]
  {
    if !t.enabled then Success(t)
    else if t.froms == [] then Failure(EmptyStack)
    else Success(t.(steps := t.steps + [Step(kind, Top(t.froms), Top(t.froms), description)]))
  }

  /** `Reset`: empty stack, no steps, no title; the enable flags are kept. */
  function Cleared(t: Trace): (r: Trace)
    ensures r.froms == [] && r.steps == [] && r.title.None?
    ensures r.enabled == t.enabled && r.loggingEnabled == t.loggingEnabled
  {
    t.(froms := [], steps := [], title := None)
  }

  /** The concatenated text of the steps, each rendered by `renderStep`. */
  function RenderSteps(steps: seq<Step>, renderStep: Step -> string): (r: string)
    ensures steps == [] ==> r == ""
    ensures |steps| == 1 ==> r == renderStep(steps[0])
  {
    if steps == [] then "" else RenderSteps(steps[..|steps| - 1], renderStep) + renderStep(steps[|steps| - 1])
  }

  /** Rendering a list of steps is rendering its parts one after the other,
      so recording further steps only extends the rendered text. */
  lemma {:induction false} RenderStepsAppend(a: seq<Step>, b: seq<Step>, renderStep: Step -> string)
    ensures RenderSteps(a + b, renderStep) == RenderSteps(a, renderStep) + RenderSteps(b, renderStep)
  {
    if b == [] {
      assert a + b == a;
    } else {
      assert (a + b)[..|a + b| - 1] == a + b[..|b| - 1];
      RenderStepsAppend(a, b[..|b| - 1], renderStep);
    }
  }

  /** A scope opened and disposed under an enabled recorder with a caller on
      the stack leaves the stack as it was and records the call followed by
      its return, or a single self-call when the callee is the caller. */
  lemma ScopeRecordsCallAndReturn(t: Trace, from: string, description: Option<string>, rd: Option<string>)
    requires t.enabled && t.froms != []
    ensures var u := Exit(Enter(t, from, description, None, None, None), true, rd);
            u.froms == t.froms && u.title == t.title &&
            u.steps == t.steps + if Top(t.froms) == from
                                 then [Step(CallSelf, from, from, description)]
                                 else [Step(Call, Top(t.froms), from, description), Step(Return, from, Top(t.froms), rd)]
  {
    var e := Enter(t, from, description, None, None, None);
    assert e.froms[..|e.froms| - 1] == t.froms;
  }

  /** The first scope opened on an empty stack is never popped by its own
      disposal: a caller stays on the stack until the next reset. */
  lemma RootScopeStays(t: Trace, from: string, description: Option<string>, rd: Option<string>)
    requires t.enabled && t.froms == []
    ensures var u := Exit(Enter(t, from, description, None, None, None), true, rd);
            u.froms == [from] && u.steps == t.steps
  {
  }

  // ---------------------------------------------------------------------
  // Runs of operations

  /** One operation on the recorder, other than `Reset`. */
  datatype Event =
    | Open(from: string, description: Option<string>, title: Option<string>, enabled: Option<bool>, loggingEnabled: Option<bool>)
    | Close(disposing: bool, returnDescription: Option<string>)
    | AddSelf(selfDescription: Option<string>)
    | AddNote(noteDescription: Option<string>)

  /** The state after one event; a throwing `Self` or `Note` leaves the state as it was. */
  function Apply(t: Trace, e: Event): Trace
  {
    match e
    case Open(from, d, title, en, log) => Enter(t, from, d, title, en, log)
    case Close(disposing, rd) => Exit(t, disposing, rd)
    case AddSelf(d) => Annotated(t, Self, d)
    case AddNote(d) => Annotated(t, Note, d)
  }

  /** The state after `Self` or `Note`, whether or not it threw. */
  function Annotated(t: Trace, kind: StepType, description: Option<string>): Trace
  {
    match Annotate(t, kind, description)
    case Success(u) => u
    case Failure(_) => t
  }

  /** The state after a run of events, in order. */
  function Run(t: Trace, events: seq<Event>): Trace
    decreases events
  {
    if events == [] then t else Run(Apply(t, events[0]), events[1..])
  }

  /** Running two runs back to back is running their concatenation. */
  lemma {:induction false} RunConcat(t: Trace, a: seq<Event>, b: seq<Event>)
    ensures Run(t, a + b) == Run(Run(t, a), b)
    decreases a
  {
    if a == [] {
      assert a + b == b;
    } else {
      assert (a + b)[0] == a[0];
      assert (a + b)[1..] == a[1..] + b;
      RunConcat(Apply(t, a[0]), a[1..], b);
    }
  }

  /** Between resets the step list only grows, by at most one step per
      operation, and steps already recorded are never changed. */
  lemma {:induction false} RunOnlyAppends(t: Trace, events: seq<Event>)
    ensures t.steps <= Run(t, events).steps
    ensures |Run(t, events).steps| <= |t.steps| + |events|
    decreases events
  {
    if events != [] {
      RunOnlyAppends(Apply(t, events[0]), events[1..]);
    }
  }

  /** An event that leaves the recorder disabled: anything but an `Open` that switches it on. */
  predicate KeepsDisabled(e: Event)
  {
    e.Open? ==> e.enabled != Some(true)
  }

  /** While the recorder stays disabled nothing is recorded: stack, steps and title are untouched. */
  lemma {:induction false} RunWhileDisabled(t: Trace, events: seq<Event>)
    requires !t.enabled
    requires forall k :: 0 <= k < |events| ==> KeepsDisabled(events[k])
    ensures var u := Run(t, events);
            !u.enabled && u.froms == t.froms && u.steps == t.steps && u.title == t.title
    decreases events
  {
    if events != [] {
      RunWhileDisabled(Apply(t, events[0]), events[1..]);
    }
  }

  /** Nested `using` scopes, one per name, each disposed in turn on the way out
      (no flag changes, no title). */
  function Nested(names: seq<string>, rd: Option<string>): seq<Event>
  {
    if names == [] then []
    else [Open(names[0], None, None, None, None)] + Nested(names[1..], rd) + [Close(true, rd)]
  }

  /** Nested scopes below a root caller: once every scope opened is disposed
      again, the caller stack is back where it started. */
  lemma {:induction false} NestedScopesRestoreStack(t: Trace, names: seq<string>, rd: Option<string>)
    requires t.enabled && |t.froms| >= 1
    ensures Run(t, Nested(names, rd)).froms == t.froms
    ensures Run(t, Nested(names, rd)).enabled
    decreases names
  {
    if names != [] {
      var open := Open(names[0], None, None, None, None);
      var inner := Nested(names[1..], rd);
      var close := Close(true, rd);
      RunConcat(t, [open] + inner, [close]);
      RunConcat(t, [open], inner);
      var t1 := Enter(t, names[0], None, None, None, None);
      assert Run(t, [open]) == t1;
      NestedScopesRestoreStack(t1, names[1..], rd);
      var t2 := Run(t1, inner);
      assert Run(t2, [close]) == Exit(t2, true, rd);
      assert t2.froms == t.froms + [names[0]];
      assert (t.froms + [names[0]])[..|t.froms|] == t.froms;
    }
  }

  // ---------------------------------------------------------------------
  // The process-wide state and the scope objects

  /** The static state shared by every `Seq`: caller stack, steps, title and flags. */
  class Recorder {
    var froms: seq<string>
    var steps: seq<Step>
    var title: Option<string>
    var enabled: bool
    var loggingEnabled: bool

    function State(): Trace
      reads this
    {
      Trace(froms, steps, title, enabled, loggingEnabled)
    }

    constructor ()
      ensures State() == Initial
    {
      froms, steps, title, enabled, loggingEnabled := [], [], None, false, false;
    }

    /** `IsEnabled()`. */
    function IsEnabled(): (r: bool)
      reads this
      ensures r == State().enabled
    {
      enabled
    }

    /** `Self(description)`: a self-arrow at the current top. */
    method Self(description: Option<string>) returns (r: Outcome<TraceError>)
      modifies this
      ensures match Annotate(old(State()), StepType.Self, description)
              case Success(u) => r.Pass? && State() == u
              case Failure(e) => r == Fail(e) && State() == old(State())
    {
      if !enabled {
        return Pass;
      }
      if froms == [] {
        return Fail(EmptyStack);
      }
      steps := steps + [Step(StepType.Self, Top(froms), Top(froms), description)];
      r := Pass;
    }

    /** `Note(description)`: a note over the current top. */
    method Note(description: Option<string>) returns (r: Outcome<TraceError>)
      modifies this
      ensures match Annotate(old(State()), StepType.Note, description)
              case Success(u) => r.Pass? && State() == u
              case Failure(e) => r == Fail(e) && State() == old(State())
    {
      if !enabled {
        return Pass;
      }
      if froms == [] {
        return Fail(EmptyStack);
      }
      steps := steps + [Step(StepType.Note, Top(froms), Top(froms), description)];
      r := Pass;
    }

    /** The effect of the `Seq` constructor on the shared state. */
    method Open(from: string, description: Option<string>, title: Option<string>,
                enabled: Option<bool>, loggingEnabled: Option<bool>)
      modifies this
      ensures State() == Enter(old(State()), from, description, title, enabled, loggingEnabled)
    {
      SetFlags(enabled, loggingEnabled);
      RecordCall(from, description, title);
    }

    /** The constructor's optional flags. */
    method SetFlags(enabled: Option<bool>, loggingEnabled: Option<bool>)
      modifies this
      ensures State() == WithFlags(old(State()), enabled, loggingEnabled)
    {
      if enabled.Some? {
        this.enabled := enabled.value;
      }
      if loggingEnabled.Some? {
        this.loggingEnabled := loggingEnabled.value;
      }
    }

    /** The rest of the constructor: title, call step and push. */
    method RecordCall(from: string, description: Option<string>, title: Option<string>)
      modifies this
      ensures State() == Record(old(State()), from, description, title)
    {
      if !enabled {
        return;
      }
      if !IsNullOrEmpty(title) {
        this.title := title;
      }
      if |froms| >= 1 {
        var top := Top(froms);
        steps := steps + [Step(if top != from then StepType.Call else CallSelf, top, from, description)];
      }
      froms := froms + [from];
    }

    /** `Reset()`. */
    method Reset()
      modifies this
      ensures State() == Cleared(old(State()))
    {
      froms := [];
      steps := [];
      title := None;
    }

    /** `Render()`: a title line followed by the text of every step in order;
        the text of one step is given by `renderStep`. */
    method Render(renderStep: Step -> string) returns (r: string)
      ensures r == "\ntitle " + Text(title) + "\n" + RenderSteps(steps, renderStep)
    {
      var sb := "\ntitle " + Text(title) + "\n";
      for i := 0 to |steps|
        invariant sb == "\ntitle " + Text(title) + "\n" + RenderSteps(steps[..i], renderStep)
      {
        assert steps[..i + 1][..i] == steps[..i];
        sb := sb + renderStep(steps[i]);
      }
      assert steps[..|steps|] == steps;
      r := sb;
    }
  }

  /** A `using` scope of the trace: created on entry to a participant and
      disposed on exit. */
  class Seq {
    const recorder: Recorder
    const returnDescription: Option<string>

    /** `new Seq(from, description, returnDescription, title, enabled, loggingEnabled)`. */
    constructor (recorder: Recorder, from: string, description: Option<string>, returnDescription: Option<string>,
                 title: Option<string>, enabled: Option<bool>, loggingEnabled: Option<bool>)
      modifies recorder
      ensures this.recorder == recorder
      ensures recorder.State() == Enter(old(recorder.State()), from, description, title, enabled, loggingEnabled)
      ensures this.returnDescription == if recorder.enabled then returnDescription else None
    {
      var isEnabled := if enabled.Some? then enabled.value else recorder.enabled;
      this.recorder := recorder;
      this.returnDescription := if isEnabled then returnDescription else None;
      new;
      recorder.Open(from, description, title, enabled, loggingEnabled);
    }

    /** `Seq.Call(...)`: no scope at all while disabled, otherwise a new scope
        that leaves the flags as they are. */
    static method Call(recorder: Recorder, from: string, description: Option<string>, returnDescription: Option<string>,
                       title: Option<string>) returns (s: Seq?)
      modifies recorder
      ensures !old(recorder.enabled) ==> s == null && recorder.State() == old(recorder.State())
      ensures old(recorder.enabled) ==> s != null && fresh(s) && s.recorder == recorder && s.returnDescription == returnDescription
      ensures old(recorder.enabled) ==> recorder.State() == Enter(old(recorder.State()), from, description, title, None, None)
    {
      if !recorder.enabled {
        return null;
      }
      s := new Seq(recorder, from, description, returnDescription, title, None, None);
    }

    /** `Dispose()`: disposes the scope's managed state. */
    method Dispose()
      modifies recorder
      ensures recorder.State() == Exit(old(recorder.State()), true, returnDescription)
    {
      DisposeCore(true);
    }

    /** `Dispose(bool disposing)`: pops the top of the caller stack (this scope's own
        name when scopes nest) and records the return to the new top. */
    method DisposeCore(disposing: bool)
      modifies recorder
      ensures recorder.State() == Exit(old(recorder.State()), disposing, returnDescription)
    {
      if !disposing {
        return;
      }
      if !recorder.enabled {
        return;
      }
      if |recorder.froms| >= 2 {
        var from := Top(recorder.froms);
        recorder.froms := recorder.froms[..|recorder.froms| - 1];
        if from != Top(recorder.froms) {
          recorder.steps := recorder.steps + [Step(Return, from, Top(recorder.froms), returnDescription)];
        }
      }
    }
  }
}
