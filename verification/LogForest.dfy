/**
 * Invocation forests and their flattening into log lines: parsing a flattened forest
 * gives every program exactly what it emitted.
 */
module LogForest {
  import opened Prelude
  import opened LogParser

  /**
   * What a transaction does from some point on. A `Call` ends in success and execution
   * goes on; an `Abort` fails, or its log is cut off, and nothing follows but what the
   * runtime still logs for it and for its callers.
   */
  datatype Trace =
    | Done
    | Emit(line: Line, rest: Trace)
    | Call(program: nat, body: Trace, rest: Trace)
    | Abort(program: nat, body: Trace, closing: seq<Line>)

  /** Any line but a genuine invoke or success line. */
  predicate Plain(l: Line) {
    l.Content? || l.change.NoChange?
  }

  /** What the runtime logs of a failure: anything but program output and success lines. */
  predicate Closing(l: Line) {
    l.System? && !l.change.Pop?
  }

  /** Execution that returns to its caller. */
  predicate Complete(t: Trace) {
    match t
    case Done => true
    case Emit(l, rest) => Plain(l) && Complete(rest)
    case Call(_, body, rest) => Complete(body) && Complete(rest)
    case Abort(_, _, _) => false
  }

  /** Execution that returns or fails. */
  predicate Possible(t: Trace) {
    match t
    case Done => true
    case Emit(l, rest) => Plain(l) && Possible(rest)
    case Call(_, body, rest) => Complete(body) && Possible(rest)
    case Abort(_, body, closing) => Possible(body) && forall l :: l in closing ==> Closing(l)
  }

  /** Outside all invocations nothing is logged but system lines. */
  predicate TopLevel(t: Trace) {
    match t
    case Done => true
    case Emit(l, rest) => l.System? && TopLevel(rest)
    case Call(_, _, rest) => TopLevel(rest)
    case Abort(_, _, _) => true
  }

  /** A transaction: it starts with an invocation. */
  predicate Transaction(t: Trace) {
    (t.Call? || t.Abort?) && Possible(t) && TopLevel(t)
  }

  function Flatten(t: Trace): seq<Line> {
    match t
    case Done => []
    case Emit(l, rest) => [l] + Flatten(rest)
    case Call(p, body, rest) => [System(Push(Key(p)))] + Flatten(body) + [System(Pop)] + Flatten(rest)
    case Abort(p, body, closing) => [System(Push(Key(p)))] + Flatten(body) + closing
  }

  /** What a plain line emits. */
  function Payload(l: Line, running: nat): seq<(nat, Bytes)> {
    if l.Content? && l.decoded.Some? then [(running, l.decoded.value)] else []
  }

  /** The payloads written, each with the program that was running, in order. */
  function Emitted(t: Trace, running: nat): seq<(nat, Bytes)> {
    match t
    case Done => []
    case Emit(l, rest) => Payload(l, running) + Emitted(rest, running)
    case Call(p, body, rest) => Emitted(body, p) + Emitted(rest, running)
    case Abort(p, body, _) => Emitted(body, p)
  }

  /** The payloads of one program. */
  function Project(emitted: seq<(nat, Bytes)>, program: nat): seq<Bytes> {
    if emitted == [] then []
    else
      var n := |emitted| - 1;
      Project(emitted[..n], program) + (if emitted[n].0 == program then [emitted[n].1] else [])
  }

  /** Recording a list of emissions, in order. */
  function RecordAll(events: Events, emitted: seq<(nat, Bytes)>): Events {
    if emitted == [] then events
    else
      var n := |emitted| - 1;
      Record(RecordAll(events, emitted[..n]), emitted[n].0, emitted[n].1)
  }

  lemma {:induction false} RecordAllAppend(events: Events, a: seq<(nat, Bytes)>, b: seq<(nat, Bytes)>)
    ensures RecordAll(events, a + b) == RecordAll(RecordAll(events, a), b)
    decreases |b|
  {
    if b == [] {
      assert a + b == a;
    } else {
      var n := |b| - 1;
      RecordAllAppend(events, a, b[..n]);
      assert (a + b)[..|a + b| - 1] == a + b[..n];
    }
  }

  /** Recording appends to each program its own payloads and nothing else. */
  lemma {:induction false} RecordAllProjects(events: Events, emitted: seq<(nat, Bytes)>, p: nat)
    ensures Lookup(RecordAll(events, emitted), p) == Lookup(events, p) + Project(emitted, p)
    ensures p in RecordAll(events, emitted) <==> p in events || Project(emitted, p) != []
    decreases |emitted|
  {
    if emitted == [] {
    } else {
      RecordAllProjects(events, emitted[..|emitted| - 1], p);
    }
  }

  // ----- the machine on a flattened trace -----

  /** A plain line records its payload under the running program. */
  lemma RunEmit(l: Line, rest: seq<Line>, stack: seq<Program>, events: Events, running: nat)
    requires Plain(l) && stack != [] && Top(stack) == Key(running)
    ensures Run(Machine(stack, events), [l] + rest, None)
              == Run(Machine(stack, RecordAll(events, Payload(l, running))), rest, None)
  {
    var m := Machine(stack, events);
    RunOne(m, l, None);
    RunAppend(m, [l], rest, None);
    if Payload(l, running) != [] {
      assert Payload(l, running)[..0] == [];
    }
  }

  /** An invoke line hands over to the body, one level deeper. */
  lemma RunInvoke(p: nat, body: seq<Line>, stack: seq<Program>, events: Events)
    requires stack != [] && Top(stack).Key?
    ensures Run(Machine(stack, events), [System(Push(Key(p)))] + body, None)
              == Run(Machine(stack + [Key(p)], events), body, None)
  {
    RunOne(Machine(stack, events), System(Push(Key(p))), None);
    RunAppend(Machine(stack, events), [System(Push(Key(p)))], body, None);
  }

  /** A success line returns to the caller. */
  lemma RunSuccess(stack: seq<Program>, p: nat, events: Events)
    ensures Run(Machine(stack + [Key(p)], events), [System(Pop)], None) == Machine(stack, events)
  {
    RunOne(Machine(stack + [Key(p)], events), System(Pop), None);
    assert (stack + [Key(p)])[..|stack|] == stack;
  }

  /** A whole call behaves like its body one level deeper. */
  lemma RunCall(p: nat, body: seq<Line>, rest: seq<Line>, stack: seq<Program>, events: Events, after: Events)
    requires stack != [] && Top(stack).Key?
    requires Run(Machine(stack + [Key(p)], events), body, None) == Machine(stack + [Key(p)], after)
    ensures Run(Machine(stack, events), [System(Push(Key(p)))] + body + [System(Pop)] + rest, None)
              == Run(Machine(stack, after), rest, None)
  {
    var m := Machine(stack, events);
    var inside := [System(Push(Key(p)))] + body;
    RunInvoke(p, body, stack, events);
    RunSuccess(stack, p, after);
    RunAppend(m, inside, [System(Pop)], None);
    RunAppend(m, inside + [System(Pop)], rest, None);
  }

  /** A complete trace leaves the stack as it was and records what it emitted. */
  lemma {:induction false} RunComplete(t: Trace, stack: seq<Program>, events: Events, running: nat)
    requires Complete(t) && stack != [] && Top(stack) == Key(running)
    ensures Run(Machine(stack, events), Flatten(t), None)
              == Machine(stack, RecordAll(events, Emitted(t, running)))
    decreases t
  {
    match t
    case Done =>
    case Emit(l, rest) =>
      var after := RecordAll(events, Payload(l, running));
      RunEmit(l, Flatten(rest), stack, events, running);
      RunComplete(rest, stack, after, running);
      RecordAllAppend(events, Payload(l, running), Emitted(rest, running));
    case Call(p, body, rest) =>
      var after := RecordAll(events, Emitted(body, p));
      RunComplete(body, stack + [Key(p)], events, p);
      RunCall(p, Flatten(body), Flatten(rest), stack, events, after);
      RunComplete(rest, stack, after, running);
      RecordAllAppend(events, Emitted(body, p), Emitted(rest, running));
  }

  /** What is logged of a failure records nothing and cannot empty the stack. */
  lemma {:induction false} RunClosing(m: Machine, closing: seq<Line>)
    requires m.Machine? && m.stack != [] && forall l :: l in closing ==> Closing(l)
    ensures var m' := Run(m, closing, None);
            m'.Machine? && m'.stack != [] && m'.events == m.events
    decreases |closing|
  {
    if closing == [] {
    } else {
      RunClosing(m, closing[..|closing| - 1]);
      assert Closing(closing[|closing| - 1]);
    }
  }

  /** A trace that may abort never panics and records what it emitted. */
  lemma {:induction false} RunPossible(t: Trace, stack: seq<Program>, events: Events, running: nat)
    requires Possible(t) && stack != [] && Top(stack) == Key(running)
    ensures var m := Run(Machine(stack, events), Flatten(t), None);
            && m.Machine? && m.stack != []
            && m.events == RecordAll(events, Emitted(t, running))
    decreases t
  {
    match t
    case Done =>
    case Emit(l, rest) =>
      var after := RecordAll(events, Payload(l, running));
      RunEmit(l, Flatten(rest), stack, events, running);
      RunPossible(rest, stack, after, running);
      RecordAllAppend(events, Payload(l, running), Emitted(rest, running));
    case Call(p, body, rest) =>
      var after := RecordAll(events, Emitted(body, p));
      RunComplete(body, stack + [Key(p)], events, p);
      RunCall(p, Flatten(body), Flatten(rest), stack, events, after);
      RunPossible(rest, stack, after, running);
      RecordAllAppend(events, Emitted(body, p), Emitted(rest, running));
    case Abort(p, body, closing) =>
      RunInvoke(p, Flatten(body), stack, events);
      RunPossible(body, stack + [Key(p)], events, p);
      RunClosing(Run(Machine(stack + [Key(p)], events), Flatten(body), None), closing);
      RunAppend(Machine(stack, events), [System(Push(Key(p)))] + Flatten(body), closing, None);
  }

  // ----- the main results -----

  /** The events of a transaction: each program's payloads, in order. */
  ghost predicate Attributes(events: Events, emitted: seq<(nat, Bytes)>) {
    forall p: nat ::
      && Lookup(events, p) == Project(emitted, p)
      && (p in events <==> Project(emitted, p) != [])
  }

  /**
   * Parsing undoes flattening: for every transaction, successful or failed, unfiltered
   * parsing never panics and gives each program exactly the payloads it emitted, in order.
   */
  lemma ParseUndoesFlatten(t: Trace)
    requires Transaction(t)
    ensures Parse(Flatten(t), None) == Some(RecordAll(map[], Emitted(t, t.program)))
    ensures Attributes(Parse(Flatten(t), None).value, Emitted(t, t.program))
  {
    assert Flatten(t)[0] == System(Push(Key(t.program)));
    RunPossible(t, [Key(t.program)], map[], t.program);
    forall p: nat
      ensures Lookup(RecordAll(map[], Emitted(t, t.program)), p) == Project(Emitted(t, t.program), p)
      ensures p in RecordAll(map[], Emitted(t, t.program)) <==> Project(Emitted(t, t.program), p) != []
    {
      RecordAllProjects(map[], Emitted(t, t.program), p);
    }
  }

  /** At top level nothing is emitted, so no event depends on the doubled first program. */
  lemma {:induction false} TopLevelEmitsNothing(t: Trace, p: nat, q: nat)
    requires TopLevel(t)
    ensures Emitted(t, p) == Emitted(t, q)
    decreases t
  {
    match t
    case Done =>
    case Emit(_, rest) => TopLevelEmitsNothing(rest, p, q);
    case Call(_, _, rest) => TopLevelEmitsNothing(rest, p, q);
    case Abort(_, _, _) =>
  }

  /**
   * The parser starts with the first program already on its stack and pushes it again.
   * Which program it starts with makes no difference to the events it finds.
   */
  lemma FirstProgramDoesNotMatter(t: Trace, q: nat)
    requires Transaction(t)
    ensures var m := Run(StartOf(Key(q)), Flatten(t), None);
            m.Machine? && Some(m.events) == Parse(Flatten(t), None)
  {
    RunPossible(t, [Key(q)], map[], q);
    TopLevelEmitsNothing(t, q, t.program);
    ParseUndoesFlatten(t);
  }

  // ----- filtered parsing of transactions -----

  /** Lines written while another program than the target runs are quiet, but for the exception. */
  predicate OthersQuietIn(t: Trace, running: nat, target: nat, exception: Option<(Line, nat)>) {
    match t
    case Done => true
    case Emit(l, rest) =>
      && (Quiet(l) || running == target || exception == Some((l, running)))
      && OthersQuietIn(rest, running, target, exception)
    case Call(p, body, rest) =>
      OthersQuietIn(body, p, target, exception) && OthersQuietIn(rest, running, target, exception)
    case Abort(p, body, _) => OthersQuietIn(body, p, target, exception)
  }

  lemma {:induction false} CompleteIsPossible(t: Trace)
    requires Complete(t)
    ensures Possible(t)
    decreases t
  {
    match t
    case Done =>
    case Emit(_, rest) => CompleteIsPossible(rest);
    case Call(_, _, rest) => CompleteIsPossible(rest);
  }

  lemma OneQuiet(m: Machine, l: Line, target: nat)
    requires m.Machine? && m.stack != [] && (Quiet(l) || Top(m.stack) == Key(target))
    ensures OthersQuiet(m, [l], target)
  {
    assert [l][..0] == [];
  }

  lemma {:induction false} ClosingIsQuiet(m: Machine, closing: seq<Line>, target: nat)
    requires forall l :: l in closing ==> Closing(l)
    ensures OthersQuiet(m, closing, target)
    decreases |closing|
  {
    if closing == [] {
    } else {
      ClosingIsQuiet(m, closing[..|closing| - 1], target);
      assert Closing(closing[|closing| - 1]);
    }
  }

  /** The flattened invocation is quiet for the target if its body is, one level deeper. */
  lemma InvocationIsQuiet(p: nat, body: seq<Line>, stack: seq<Program>, events: Events, target: nat)
    requires stack != [] && Top(stack).Key? && OthersQuiet(Machine(stack + [Key(p)], events), body, target)
    ensures OthersQuiet(Machine(stack, events), [System(Push(Key(p)))] + body, target)
  {
    var m, invoke := Machine(stack, events), System(Push(Key(p)));
    OneQuiet(m, invoke, target);
    RunOne(m, invoke, None);
    OthersQuietAppend(m, [invoke], body, target);
  }

  lemma CallIsQuiet(p: nat, body: seq<Line>, rest: seq<Line>, stack: seq<Program>, events: Events, after: Events,
                    target: nat)
    requires stack != [] && Top(stack).Key?
    requires OthersQuiet(Machine(stack, events), [System(Push(Key(p)))] + body, target)
    requires Run(Machine(stack + [Key(p)], events), body, None) == Machine(stack + [Key(p)], after)
    requires OthersQuiet(Machine(stack, after), rest, target)
    ensures OthersQuiet(Machine(stack, events), [System(Push(Key(p)))] + body + [System(Pop)] + rest, target)
  {
    var m := Machine(stack, events);
    var inside := [System(Push(Key(p)))] + body;
    RunInvoke(p, body, stack, events);
    OneQuiet(Machine(stack + [Key(p)], after), System(Pop), target);
    OthersQuietAppend(m, inside, [System(Pop)], target);
    RunAppend(m, inside, [System(Pop)], None);
    RunSuccess(stack, p, after);
    OthersQuietAppend(m, inside + [System(Pop)], rest, target);
  }

  /** A quiet trace flattens to a quiet log. */
  lemma {:induction false} FlattenIsQuiet(t: Trace, stack: seq<Program>, events: Events, running: nat, target: nat)
    requires Possible(t) && stack != [] && Top(stack) == Key(running) && OthersQuietIn(t, running, target, None)
    ensures OthersQuiet(Machine(stack, events), Flatten(t), target)
    decreases t
  {
    var m := Machine(stack, events);
    match t
    case Done =>
    case Emit(l, rest) =>
      var after := RecordAll(events, Payload(l, running));
      OneQuiet(m, l, target);
      RunEmit(l, [], stack, events, running);
      assert [l] + [] == [l];
      FlattenIsQuiet(rest, stack, after, running, target);
      OthersQuietAppend(m, [l], Flatten(rest), target);
    case Call(p, body, rest) =>
      var after := RecordAll(events, Emitted(body, p));
      CompleteIsPossible(body);
      FlattenIsQuiet(body, stack + [Key(p)], events, p, target);
      InvocationIsQuiet(p, Flatten(body), stack, events, target);
      RunComplete(body, stack + [Key(p)], events, p);
      FlattenIsQuiet(rest, stack, after, running, target);
      CallIsQuiet(p, Flatten(body), Flatten(rest), stack, events, after, target);
    case Abort(p, body, closing) =>
      FlattenIsQuiet(body, stack + [Key(p)], events, p, target);
      InvocationIsQuiet(p, Flatten(body), stack, events, target);
      var inside := [System(Push(Key(p)))] + Flatten(body);
      ClosingIsQuiet(Run(m, inside, None), closing, target);
      OthersQuietAppend(m, inside, closing, target);
  }

  /** Filtered parsing of a transaction finds exactly the target's payloads. */
  ghost predicate FilterAgrees(t: Trace, target: nat)
    requires Transaction(t)
  {
    Parse(Flatten(t), Some(target)) == Some(Restrict(RecordAll(map[], Emitted(t, t.program)), target))
  }

  /** If only the target prints lines that look like invocations or successes, its events are found exactly. */
  lemma FilteredParseOfTransaction(t: Trace, target: nat)
    requires Transaction(t) && OthersQuietIn(t, t.program, target, None)
    ensures FilterAgrees(t, target)
    ensures Lookup(Parse(Flatten(t), Some(target)).value, target) == Project(Emitted(t, t.program), target)
  {
    assert Flatten(t)[0] == System(Push(Key(t.program)));
    ParseUndoesFlatten(t);
    FlattenIsQuiet(t, [Key(t.program)], map[], t.program, target);
    FilteredIsRestriction(Flatten(t), target);
  }

  // ----- which content lines are harmless to a filtered parse -----

  /**
   * However often program p writes line l, filtered parsing for the target stays right on
   * every transaction whose other lines are quiet.
   */
  ghost predicate Harmless(l: Line, p: nat, target: nat) {
    forall t: Trace ::
      Transaction(t) && OthersQuietIn(t, t.program, target, Some((l, p))) ==> FilterAgrees(t, target)
  }

  /** A payload. */
  const SAMPLE := Content(Some([7]), NoChange)

  /** A log line of program p that reads as a success, before the target q runs. */
  function PopWitness(l: Line, p: nat, q: nat): Trace {
    Call(p, Emit(l, Done), Call(q, Done, Done))
  }

  /** A log line of program p that reads as an invocation, called by the target q before it emits. */
  function PushWitness(l: Line, p: nat, q: nat): Trace {
    Call(q, Call(p, Emit(l, Done), Emit(SAMPLE, Done)), Done)
  }

  lemma RunFive(m: Machine, a: Line, b: Line, c: Line, d: Line, e: Line, target: Option<nat>)
    ensures Run(m, [a, b, c, d, e], target)
              == Step(Step(Step(Step(Step(m, a, target), b, target), c, target), d, target), e, target)
  {
    RunOne(m, a, target);
    RunAppend(m, [a], [b], target);
    RunOne(Step(m, a, target), b, target);
    RunAppend(m, [a, b], [c], target);
    RunOne(Run(m, [a, b], target), c, target);
    RunAppend(m, [a, b, c], [d], target);
    RunOne(Run(m, [a, b, c], target), d, target);
    RunAppend(m, [a, b, c, d], [e], target);
    RunOne(Run(m, [a, b, c, d], target), e, target);
    assert [a] + [b] == [a, b] && [a, b] + [c] == [a, b, c];
    assert [a, b, c] + [d] == [a, b, c, d] && [a, b, c, d] + [e] == [a, b, c, d, e];
  }

  lemma FlattenOne(l: Line)
    ensures Flatten(Emit(l, Done)) == [l]
  {
    assert Flatten(Done) == [];
  }

  lemma FlattenEmptyCall(q: nat)
    ensures Flatten(Call(q, Done, Done)) == [System(Push(Key(q))), System(Pop)]
  {
    assert Flatten(Done) == [];
  }

  lemma PopWitnessShape(l: Line, p: nat, q: nat)
    requires l.Content?
    ensures Transaction(PopWitness(l, p, q)) && OthersQuietIn(PopWitness(l, p, q), p, q, Some((l, p)))
    ensures Flatten(PopWitness(l, p, q))
              == [System(Push(Key(p))), l, System(Pop), System(Push(Key(q))), System(Pop)]
  {
    var first, second := Emit(l, Done), Call(q, Done, Done);
    FlattenOne(l);
    FlattenEmptyCall(q);
    assert Complete(Done);
    assert Complete(first);
    assert Possible(second);
    assert TopLevel(second);
    assert OthersQuietIn(first, p, q, Some((l, p)));
    assert OthersQuietIn(second, p, q, Some((l, p)));
  }

  lemma PopWitnessPanics(l: Line, p: nat, q: nat)
    requires l.Content? && l.raw.Pop? && p != q
    ensures Parse(Flatten(PopWitness(l, p, q)), Some(q)).None?
  {
    PopWitnessShape(l, p, q);
    var pushP, pushQ, pop := System(Push(Key(p))), System(Push(Key(q))), System(Pop);
    var m := StartOf(Key(p));
    RunFive(m, pushP, l, pop, pushQ, pop, Some(q));
    assert Step(m, pushP, Some(q)) == Machine([Key(p), Key(p)], map[]);
    assert Step(Machine([Key(p), Key(p)], map[]), l, Some(q)) == m;
    assert Step(m, pop, Some(q)) == Machine([], map[]);
  }

  lemma PushWitnessShape(l: Line, p: nat, q: nat)
    requires l.Content?
    ensures Transaction(PushWitness(l, p, q)) && OthersQuietIn(PushWitness(l, p, q), q, q, Some((l, p)))
    ensures Flatten(PushWitness(l, p, q))
              == [System(Push(Key(q))), System(Push(Key(p))), l, System(Pop), SAMPLE] + [System(Pop)]
  {
    var noise, sample := Emit(l, Done), Emit(SAMPLE, Done);
    var body := Call(p, noise, sample);
    FlattenOne(l);
    FlattenOne(SAMPLE);
    assert Flatten(body) == [System(Push(Key(p))), l, System(Pop), SAMPLE];
    assert Complete(Done);
    assert Complete(noise);
    assert Complete(sample);
    assert Complete(body);
    assert OthersQuietIn(noise, p, q, Some((l, p)));
    assert OthersQuietIn(sample, q, q, Some((l, p)));
    assert OthersQuietIn(body, q, q, Some((l, p)));
  }

  lemma PushWitnessEmits(l: Line, p: nat, q: nat)
    requires l.Content?
    ensures q in RecordAll(map[], Emitted(PushWitness(l, p, q), q))
  {
    var emitted := Payload(l, p) + [(q, [7])];
    assert Emitted(Emit(SAMPLE, Done), q) == [(q, [7])];
    assert Emitted(Emit(l, Done), p) == Payload(l, p);
    assert Emitted(Call(p, Emit(l, Done), Emit(SAMPLE, Done)), q) == emitted;
    assert Emitted(PushWitness(l, p, q), q) == emitted;
    assert emitted[|emitted| - 1] == (q, [7]);
  }

  /** While another program runs, the success line only undoes the misread invocation. */
  lemma MisreadInvoke(m: Machine, l: Line, p: nat, q: nat)
    requires m.Machine? && m.stack != [] && Top(m.stack) == Key(p) && p != q && l.Content? && l.raw.Push?
    ensures Step(Step(m, l, Some(q)), System(Pop), Some(q)) == m
  {
    var deep := m.stack + [l.raw.program];
    assert Step(m, l, Some(q)) == Machine(deep, m.events);
    assert deep[..|m.stack|] == m.stack;
  }

  lemma PushWitnessSteps(l: Line, p: nat, q: nat)
    requires l.Content? && l.raw.Push? && p != q
    ensures var m := StartOf(Key(q));
            var m3 := Step(Step(Step(m, System(Push(Key(q))), Some(q)), System(Push(Key(p))), Some(q)), l, Some(q));
            Step(Step(m3, System(Pop), Some(q)), SAMPLE, Some(q)) == Machine([Key(q), Key(q), Key(p)], map[])
  {
    var shallow := Machine([Key(q), Key(q), Key(p)], map[]);
    assert Step(StartOf(Key(q)), System(Push(Key(q))), Some(q)) == Machine([Key(q), Key(q)], map[]);
    assert Step(Machine([Key(q), Key(q)], map[]), System(Push(Key(p))), Some(q)) == shallow;
    MisreadInvoke(shallow, l, p, q);
  }

  lemma PushWitnessLosesEvent(l: Line, p: nat, q: nat)
    requires l.Content? && l.raw.Push? && p != q
    ensures Parse(Flatten(PushWitness(l, p, q)), Some(q)) == Some(map[])
  {
    PushWitnessShape(l, p, q);
    PushWitnessSteps(l, p, q);
    var pushP, pushQ, pop := System(Push(Key(p))), System(Push(Key(q))), System(Pop);
    var m := StartOf(Key(q));
    RunFive(m, pushQ, pushP, l, pop, SAMPLE, Some(q));
    RunAppend(m, [pushQ, pushP, l, pop, SAMPLE], [pop], Some(q));
    RunOne(Machine([Key(q), Key(q), Key(p)], map[]), pop, Some(q));
  }

  /** An exception that is no exception for the target can be dropped. */
  lemma {:induction false} DropException(t: Trace, running: nat, target: nat, l: Line, p: nat)
    requires (Quiet(l) || p == target) && OthersQuietIn(t, running, target, Some((l, p)))
    ensures OthersQuietIn(t, running, target, None)
    decreases t
  {
    match t
    case Done =>
    case Emit(_, rest) => DropException(rest, running, target, l, p);
    case Call(q, body, rest) =>
      DropException(body, q, target, l, p);
      DropException(rest, running, target, l, p);
    case Abort(q, body, _) => DropException(body, q, target, l, p);
  }

  /**
   * An output line of program p is harmless to parsing for the target if and only if p is
   * the target or neither the invoke nor the success pattern matches the line: otherwise a
   * line read as a success makes the parser panic on some transaction, and one read as an
   * invocation makes it lose an event.
   */
  lemma HarmlessIff(l: Line, p: nat, target: nat)
    requires l.Content?
    ensures Harmless(l, p, target) <==> Quiet(l) || p == target
  {
    if Quiet(l) || p == target {
      forall t: Trace | Transaction(t) && OthersQuietIn(t, t.program, target, Some((l, p)))
        ensures FilterAgrees(t, target)
      {
        DropException(t, t.program, target, l, p);
        FilteredParseOfTransaction(t, target);
      }
    } else if l.raw.Pop? {
      PopWitnessShape(l, p, target);
      PopWitnessPanics(l, p, target);
      assert !FilterAgrees(PopWitness(l, p, target), target);
    } else {
      var t := PushWitness(l, p, target);
      PushWitnessShape(l, p, target);
      PushWitnessLosesEvent(l, p, target);
      PushWitnessEmits(l, p, target);
      assert target in Restrict(RecordAll(map[], Emitted(t, target)), target);
      assert !FilterAgrees(t, target);
    }
  }
}
