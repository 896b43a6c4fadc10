/**
 * Recovering which program emitted which event from the flat log of a transaction
 * (crates/biscuit/src/parser/v1/logs/mod.rs).
 */
module LogParser {
  import opened Prelude

  type Bytes = seq<nat>

  /** What an invoke line captures: a public key, or text that is not one. */
  datatype Program = Key(id: nat) | Junk(text: string)

  datatype Manipulation = Push(program: Program) | Pop | NoChange

  /**
   * A classified log line. `Content` starts with the prefix of a program log or of program
   * data: `decoded` is its payload, if it decodes, and `raw` is what the invoke and success
   * patterns make of the whole line. Every other line is `System`.
   */
  datatype Line =
    | Content(decoded: Option<Bytes>, raw: Manipulation)
    | System(change: Manipulation)

  /** Detects a push or a pop on the raw line (lines 157-173). */
  function HandleSystemLog(l: Line): Manipulation {
    match l
    case Content(_, raw) => raw
    case System(change) => change
  }

  /** Payload and stack change of a line of the program of interest (lines 91-110). */
  function HandleProgramLog(l: Line): (Option<Bytes>, Manipulation) {
    match l
    case Content(decoded, _) => (decoded, NoChange)
    case System(change) => (None, change)
  }

  type Events = map<nat, seq<Bytes>>

  function Lookup(events: Events, program: nat): seq<Bytes> {
    if program in events then events[program] else []
  }

  function Record(events: Events, program: nat, payload: Bytes): Events {
    events[program := Lookup(events, program) + [payload]]
  }

  /** The call stack and the events found so far; `Panicked` after a failed assertion or unwrap. */
  datatype Machine = Machine(stack: seq<Program>, events: Events) | Panicked

  function Top(stack: seq<Program>): Program
    requires stack != []
  {
    stack[|stack| - 1]
  }

  function Manipulate(stack: seq<Program>, change: Manipulation): seq<Program>
    requires stack != []
  {
    match change
    case Push(p) => stack + [p]
    case Pop => stack[..|stack| - 1]
    case NoChange => stack
  }

  /** Is a line written while `p` runs to be read as a line of the target? No target reads all. */
  predicate Wanted(p: Program, target: Option<nat>) {
    target.None? || p == Key(target.value)
  }

  function Step(m: Machine, l: Line, target: Option<nat>): Machine {
    if m.Panicked? || m.stack == [] then Panicked
    else
      var p := Top(m.stack);
      var (payload, change) := if Wanted(p, target) then HandleProgramLog(l) else (None, HandleSystemLog(l));
      if payload.Some? && p.Junk? then Panicked
      else
        var events := if payload.Some? then Record(m.events, p.id, payload.value) else m.events;
        Machine(Manipulate(m.stack, change), events)
  }

  function Run(m: Machine, lines: seq<Line>, target: Option<nat>): Machine {
    if lines == [] then m
    else Step(Run(m, lines[..|lines| - 1], target), lines[|lines| - 1], target)
  }

  /** The machine with which a parse starts. */
  function StartOf(first: Program): Machine {
    Machine([first], map[])
  }

  /** The result for a whole log: None when the parser panics. */
  function Parse(lines: seq<Line>, target: Option<nat>): Option<Events> {
    if lines == [] then Some(map[])
    else match HandleSystemLog(lines[0])
      case Push(first) =>
        var m := Run(StartOf(first), lines, target);
        if m.Panicked? then None else Some(m.events)
      case _ => Some(map[])
  }

  // ----- the parser as it runs -----

  /** The call stack; its methods return false or None where the source asserts. */
  class ProgramCpiStack {
    var stack: seq<Program>

    /**
     * Starts from the program of the first line. The line is not consumed: the caller's
     * slice advances, its log does not, so the first program is pushed once more.
     */
    constructor (first: Program)
      ensures stack == [first]
    {
      stack := [first];
    }

    method Program() returns (p: Option<Program>)
      ensures p == if stack == [] then None else Some(Top(stack))
    {
      p := if |stack| == 0 then None else Some(stack[|stack| - 1]);
    }

    method Push(p: Program)
      modifies this
      ensures stack == old(stack) + [p]
    {
      stack := stack + [p];
    }

    method Pop() returns (ok: bool)
      modifies this
      ensures ok == (old(stack) != [])
      ensures stack == if ok then old(stack)[..|old(stack)| - 1] else old(stack)
    {
      ok := |stack| != 0;
      if ok {
        stack := stack[..|stack| - 1];
      }
    }
  }

  lemma RunNext(m: Machine, lines: seq<Line>, k: nat, target: Option<nat>)
    requires k < |lines|
    ensures Run(m, lines[..k + 1], target) == Step(Run(m, lines[..k], target), lines[k], target)
  {
    assert lines[..k + 1][..k] == lines[..k];
  }

  lemma {:induction false} PanicIsFinal(m: Machine, lines: seq<Line>, k: nat, target: Option<nat>)
    requires k <= |lines| && Run(m, lines[..k], target).Panicked?
    ensures Run(m, lines, target).Panicked?
    decreases |lines| - k
  {
    if k < |lines| {
      RunNext(m, lines, k, target);
      PanicIsFinal(m, lines, k + 1, target);
    } else {
      assert lines[..k] == lines;
    }
  }

  method ParseTransactionLogs(lines: seq<Line>, target: Option<nat>) returns (result: Option<Events>)
    ensures result == Parse(lines, target)
  {
    var events: Events := map[];
    if |lines| == 0 || !HandleSystemLog(lines[0]).Push? {
      return Some(events);
    }
    var execution := new ProgramCpiStack(HandleSystemLog(lines[0]).program);
    ghost var start := StartOf(HandleSystemLog(lines[0]).program);
    for k := 0 to |lines|
      invariant Run(start, lines[..k], target) == Machine(execution.stack, events)
    {
      RunNext(start, lines, k, target);
      var l := lines[k];
      var top := execution.Program();
      if top.None? {
        PanicIsFinal(start, lines, k + 1, target);
        return None;
      }
      var p := top.value;
      var payload, change := None, HandleSystemLog(l);
      if Wanted(p, target) {
        var (logged, moved) := HandleProgramLog(l);
        payload, change := logged, moved;
      }
      if payload.Some? {
        if p.Junk? {
          PanicIsFinal(start, lines, k + 1, target);
          return None;
        }
        events := Record(events, p.id, payload.value);
      }
      match change
      case Push(q) => execution.Push(q);
      case Pop =>
        var ok := execution.Pop();
        assert ok;
      case NoChange =>
    }
    assert lines[..|lines|] == lines;
    return Some(events);
  }

  lemma {:induction false} RunAppend(m: Machine, a: seq<Line>, b: seq<Line>, target: Option<nat>)
    ensures Run(m, a + b, target) == Run(Run(m, a, target), b, target)
    decreases |b|
  {
    if b == [] {
      assert a + b == a;
    } else {
      var n := |b| - 1;
      RunAppend(m, a, b[..n], target);
      assert (a + b)[..|a + b| - 1] == a + b[..n];
    }
  }

  lemma RunOne(m: Machine, l: Line, target: Option<nat>)
    ensures Run(m, [l], target) == Step(m, l, target)
  {
    assert [l][..0] == [];
  }

  // ----- filtered parsing is restriction -----

  /** A line that the invoke and success patterns do not mistake for one of theirs. */
  predicate Quiet(l: Line) {
    l.Content? ==> l.raw.NoChange?
  }

  function Restrict(events: Events, program: nat): Events {
    if program in events then map[program := events[program]] else map[]
  }

  lemma StepRestricts(m: Machine, f: Machine, l: Line, target: nat)
    requires m.Machine? && f == Machine(m.stack, Restrict(m.events, target))
    requires m.stack != [] && (Quiet(l) || Top(m.stack) == Key(target))
    requires Step(m, l, None).Machine?
    ensures var m' := Step(m, l, None);
            Step(f, l, Some(target)) == Machine(m'.stack, Restrict(m'.events, target))
  {
  }

  /** While another program than the target runs, by the unfiltered parse, every line is quiet. */
  ghost predicate OthersQuiet(m: Machine, lines: seq<Line>, target: nat) {
    lines != [] ==>
      var n := |lines| - 1;
      var before := Run(m, lines[..n], None);
      && OthersQuiet(m, lines[..n], target)
      && (before.Machine? && before.stack != [] ==> Quiet(lines[n]) || Top(before.stack) == Key(target))
  }

  lemma {:induction false} RunRestricts(m: Machine, lines: seq<Line>, target: nat)
    requires m.Machine? && OthersQuiet(m, lines, target)
    requires Run(m, lines, None).Machine?
    ensures var m' := Run(m, lines, None);
            Run(Machine(m.stack, Restrict(m.events, target)), lines, Some(target))
              == Machine(m'.stack, Restrict(m'.events, target))
    decreases |lines|
  {
    if lines == [] {
    } else {
      var n := |lines| - 1;
      RunRestricts(m, lines[..n], target);
      var f := Machine(m.stack, Restrict(m.events, target));
      StepRestricts(Run(m, lines[..n], None), Run(f, lines[..n], Some(target)), lines[n], target);
    }
  }

  /**
   * Filtered parsing is restriction, for every log in which all lines of other programs
   * are quiet: it finds exactly the target's events of the unfiltered parse, and panics
   * only if that one does. The target's own lines may look like anything.
   */
  lemma FilteredIsRestriction(lines: seq<Line>, target: nat)
    requires lines != [] && HandleSystemLog(lines[0]).Push? ==>
               OthersQuiet(StartOf(HandleSystemLog(lines[0]).program), lines, target)
    requires Parse(lines, None).Some?
    ensures Parse(lines, Some(target)) == Some(Restrict(Parse(lines, None).value, target))
  {
    if lines != [] && HandleSystemLog(lines[0]).Push? {
      RunRestricts(StartOf(HandleSystemLog(lines[0]).program), lines, target);
    }
  }

  lemma {:induction false} OthersQuietAppend(m: Machine, a: seq<Line>, b: seq<Line>, target: nat)
    requires OthersQuiet(m, a, target) && OthersQuiet(Run(m, a, None), b, target)
    ensures OthersQuiet(m, a + b, target)
    decreases |b|
  {
    if b == [] {
      assert a + b == a;
    } else {
      var n := |b| - 1;
      OthersQuietAppend(m, a, b[..n], target);
      RunAppend(m, a, b[..n], None);
      assert (a + b)[..|a + b| - 1] == a + b[..n];
    }
  }

  lemma {:induction false} FilteredKeys(m: Machine, lines: seq<Line>, target: nat)
    requires m.Machine? && m.events.Keys <= {target}
    ensures var m' := Run(m, lines, Some(target));
            m'.Machine? ==> m'.events.Keys <= {target}
    decreases |lines|
  {
    if lines == [] {
    } else {
      FilteredKeys(m, lines[..|lines| - 1], target);
    }
  }

  /**
   * The events of one program: the source takes whichever value the filtered map yields
   * first, and that map has no key but the target's, whatever the lines are.
   */
  method GetLogsForProgram(lines: seq<Line>, target: nat) returns (events: Option<seq<Bytes>>)
    ensures events == match Parse(lines, Some(target))
                      case None => None
                      case Some(found) => Some(Lookup(found, target))
  {
    var result := ParseTransactionLogs(lines, Some(target));
    if result.None? {
      return None;
    }
    if lines != [] && HandleSystemLog(lines[0]).Push? {
      FilteredKeys(StartOf(HandleSystemLog(lines[0]).program), lines, target);
    }
    if result.value == map[] {
      return Some([]);
    }
    var k :| k in result.value;
    return Some(result.value[k]);
  }

  // ----- when parsing panics -----

  /** The line finds an empty stack, or a payload while something that is no public key runs. */
  ghost predicate PanicsAt(m: Machine, l: Line, target: Option<nat>) {
    && m.Machine?
    && (m.stack == [] || (target.None? && Top(m.stack).Junk? && l.Content? && l.decoded.Some?))
  }

  ghost predicate PanicsIn(m: Machine, lines: seq<Line>, target: Option<nat>) {
    exists k :: 0 <= k < |lines| && PanicsAt(Run(m, lines[..k], target), lines[k], target)
  }

  lemma PanicsInStep(m: Machine, front: seq<Line>, last: Line, lines: seq<Line>, target: Option<nat>)
    requires lines == front + [last]
    ensures PanicsIn(m, lines, target) <==> PanicsIn(m, front, target) || PanicsAt(Run(m, front, target), last, target)
  {
    assert lines[..|front|] == front;
    if PanicsIn(m, front, target) {
      var k :| 0 <= k < |front| && PanicsAt(Run(m, front[..k], target), front[k], target);
      assert lines[..k] == front[..k];
    }
    if PanicsIn(m, lines, target) {
      var k :| 0 <= k < |lines| && PanicsAt(Run(m, lines[..k], target), lines[k], target);
      assert k < |front| ==> lines[..k] == front[..k];
    }
  }

  lemma StepPanicsIff(m: Machine, l: Line, target: Option<nat>)
    ensures Step(m, l, target).Panicked? <==> m.Panicked? || PanicsAt(m, l, target)
  {
  }

  lemma {:induction false} RunPanicsIff(m: Machine, lines: seq<Line>, target: Option<nat>)
    requires m.Machine?
    ensures Run(m, lines, target).Panicked? <==> PanicsIn(m, lines, target)
    decreases |lines|
  {
    if lines == [] {
    } else {
      var front, last := lines[..|lines| - 1], lines[|lines| - 1];
      RunPanicsIff(m, front, target);
      FrontAndLast(lines);
      PanicsInStep(m, front, last, lines, target);
      StepPanicsIff(Run(m, front, target), last, target);
    }
  }

  /**
   * Exactly when parsing panics, on every log: its first line must be an invocation, and
   * some line finds the stack empty or a payload under something that is no public key. A
   * log that does not start with an invocation has no events.
   */
  lemma ParsePanicsIff(lines: seq<Line>, target: Option<nat>)
    ensures lines == [] || !HandleSystemLog(lines[0]).Push? ==> Parse(lines, target) == Some(map[])
    ensures lines != [] && HandleSystemLog(lines[0]).Push? ==>
              var start := StartOf(HandleSystemLog(lines[0]).program);
              Parse(lines, target).None? <==> PanicsIn(start, lines, target)
  {
    if lines != [] && HandleSystemLog(lines[0]).Push? {
      RunPanicsIff(StartOf(HandleSystemLog(lines[0]).program), lines, target);
    }
  }
}
