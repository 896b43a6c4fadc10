/**
 * Classifying the text of a log line: the prefixes of program output and the patterns
 * `^Program (.*) invoke.*$` and `^Program (.*) success*$`
 * (crates/biscuit/src/parser/v1/logs/mod.rs). Decoding a payload and reading a public key
 * are parameters.
 */
module LogText {
  import opened Prelude
  import opened LogParser
  import opened LogForest

  const PROGRAM := "Program "
  const PROGRAM_LOG := "Program log: "
  const PROGRAM_DATA := "Program data: "
  const INVOKE := " invoke"
  const SUCCESS := " succes"

  /** `word` stands at position i of `s`. */
  predicate At(s: string, i: nat, word: string) {
    i + |word| <= |s| && s[i..i + |word|] == word
  }

  /** The greatest i in lo..hi where `word` stands. */
  function LastAt(s: string, word: string, lo: nat, hi: nat): Option<nat>
    decreases hi
  {
    if hi < lo then None
    else if At(s, hi, word) then Some(hi)
    else if hi == 0 then None
    else LastAt(s, word, lo, hi - 1)
  }

  lemma {:induction false} LastAtIsLast(s: string, word: string, lo: nat, hi: nat)
    ensures match LastAt(s, word, lo, hi)
            case Some(i) => lo <= i <= hi && At(s, i, word) && forall j :: i < j <= hi ==> !At(s, j, word)
            case None => forall j :: lo <= j <= hi ==> !At(s, j, word)
    decreases hi
  {
    if hi < lo || At(s, hi, word) || hi == 0 {
    } else {
      LastAtIsLast(s, word, lo, hi - 1);
    }
  }

  /** The text captured by the invoke pattern: greedily up to the last " invoke". */
  function Invoked(s: string): Option<string> {
    if !(PROGRAM <= s) || '\n' in s then None
    else
      match LastAt(s, INVOKE, |PROGRAM|, |s|)
      case None => None
      case Some(i) => if |PROGRAM| <= i <= |s| then Some(s[|PROGRAM|..i]) else None
  }

  /** The success pattern: " succes" followed by nothing but further letters s. */
  predicate Succeeded(s: string) {
    && PROGRAM <= s
    && '\n' !in s
    && exists i: nat :: |PROGRAM| <= i <= |s| && At(s, i, SUCCESS)
                        && forall j :: i + |SUCCESS| <= j < |s| ==> s[j] == 's'
  }

  /** A captured program, read as a public key where it is one. */
  function Named(name: string, key: string -> Option<nat>): Program {
    match key(name)
    case Some(id) => Key(id)
    case None => Junk(name)
  }

  function SystemChange(s: string, key: string -> Option<nat>): Manipulation {
    match Invoked(s)
    case Some(name) => Push(Named(name, key))
    case None => if Succeeded(s) then Pop else NoChange
  }

  function Classify(s: string, key: string -> Option<nat>, decode: string -> Option<Bytes>): Line {
    if PROGRAM_LOG <= s then Content(decode(s[|PROGRAM_LOG|..]), SystemChange(s, key))
    else if PROGRAM_DATA <= s then Content(decode(s[|PROGRAM_DATA|..]), SystemChange(s, key))
    else System(SystemChange(s, key))
  }

  /** Text without spaces, colons and line breaks, as program ids and call depths are. */
  predicate Token(s: string) {
    ' ' !in s && ':' !in s && '\n' !in s
  }

  /** A word can only stand where its first letter does. */
  lemma WordStartsAt(s: string, i: nat, word: string)
    requires word != ""
    ensures At(s, i, word) ==> i < |s| && s[i] == word[0]
    ensures At(s, i, word) && |word| > 1 ==> i + 1 < |s| && s[i + 1] == word[1]
  {
    if At(s, i, word) {
      assert s[i..i + |word|][0] == s[i];
      assert |word| > 1 ==> s[i..i + |word|][1] == s[i + 1];
    }
  }

  /** The characters of "Program X tail" for a token X. */
  lemma NameCharacters(name: string, rest: string)
    requires Token(name)
    ensures var s := PROGRAM + name + rest;
            forall k :: |PROGRAM| <= k < |PROGRAM| + |name| ==> s[k] != ' ' && s[k] != ':'
  {
    var s := PROGRAM + name + rest;
    assert forall k :: |PROGRAM| <= k < |PROGRAM| + |name| ==> s[k] in name;
  }

  /** A program's name with something after it does not look like program output. */
  lemma NameIsNotOutput(name: string, rest: string)
    requires Token(name) && name != ""
    requires rest != "" && rest[0] == ' '
    ensures !(PROGRAM_LOG <= PROGRAM + name + rest)
    ensures !(PROGRAM_DATA <= PROGRAM + name + rest)
  {
    var s, p := PROGRAM + name + rest, |PROGRAM| + |name|;
    NameCharacters(name, rest);
    assert s[p] == ' ';
    assert s[Min(p, 11)] != PROGRAM_LOG[Min(p, 11)];
    assert s[Min(p, 12)] != PROGRAM_DATA[Min(p, 12)];
  }

  /** In "Program X tail" with a token X, a word starting with a space stands only in the tail. */
  lemma WordInTail(name: string, rest: string, i: nat, word: string)
    requires Token(name) && word != "" && word[0] == ' ' && i >= |PROGRAM|
    ensures At(PROGRAM + name + rest, i, word) ==>
              i >= |PROGRAM| + |name| && At(rest, i - |PROGRAM| - |name|, word)
  {
    var s, p := PROGRAM + name + rest, |PROGRAM| + |name|;
    WordStartsAt(s, i, word);
    NameCharacters(name, rest);
    if At(s, i, word) {
      assert s[i..i + |word|] == rest[i - p..i - p + |word|];
    }
  }

  /** What follows the program's name in an invoke line. */
  function InvokeTail(depth: string): string {
    INVOKE + " [" + depth + "]"
  }

  /** In " invoke [d]" the word " invoke" stands only at the beginning. */
  lemma InvokeStandsFirst(depth: string, i: nat)
    requires Token(depth)
    ensures At(InvokeTail(depth), i, INVOKE) <==> i == 0
  {
    var rest := InvokeTail(depth);
    WordStartsAt(rest, i, INVOKE);
    assert rest[0..|INVOKE|] == INVOKE;
    assert forall k :: 9 <= k < |rest| ==> rest[k] == (depth + "]")[k - 9];
    assert forall k :: 0 <= k < |depth| + 1 ==> (depth + "]")[k] == ']' || (depth + "]")[k] in depth;
  }

  lemma NoLineBreak(name: string, rest: string)
    requires Token(name) && '\n' !in rest
    ensures '\n' !in PROGRAM + name + rest
  {
  }

  /** The last " invoke" of an invoke line stands right after the program's name. */
  lemma InvokeStandsAfterName(name: string, depth: string)
    requires Token(name) && Token(depth)
    ensures var s := PROGRAM + name + InvokeTail(depth);
            LastAt(s, INVOKE, |PROGRAM|, |s|) == Some(|PROGRAM| + |name|)
  {
    var rest := InvokeTail(depth);
    var s, p := PROGRAM + name + rest, |PROGRAM| + |name|;
    assert s[p..p + |INVOKE|] == INVOKE;
    assert At(s, p, INVOKE);
    LastAtIsLast(s, INVOKE, |PROGRAM|, |s|);
    var i := LastAt(s, INVOKE, |PROGRAM|, |s|).value;
    WordInTail(name, rest, i, INVOKE);
    InvokeStandsFirst(depth, i - p);
  }

  /** An invoke line "Program X invoke [d]" pushes exactly X. */
  lemma InvokeLine(name: string, depth: string, key: string -> Option<nat>, decode: string -> Option<Bytes>)
    requires Token(name) && name != "" && Token(depth)
    ensures Classify(PROGRAM + name + InvokeTail(depth), key, decode) == System(Push(Named(name, key)))
  {
    var rest := InvokeTail(depth);
    var s, p := PROGRAM + name + rest, |PROGRAM| + |name|;
    NameIsNotOutput(name, rest);
    NoLineBreak(name, rest);
    InvokeStandsAfterName(name, depth);
    assert PROGRAM <= s && s[|PROGRAM|..p] == name;
    assert Invoked(s) == Some(name);
  }

  lemma SuccessHasNoInvoke(i: nat)
    ensures !At(" success", i, INVOKE)
  {
    WordStartsAt(" success", i, INVOKE);
  }

  /** A success line "Program X success" pops. */
  lemma SuccessLine(name: string, key: string -> Option<nat>, decode: string -> Option<Bytes>)
    requires Token(name) && name != ""
    ensures Classify(PROGRAM + name + " success", key, decode) == System(Pop)
  {
    var rest := " success";
    var s, p := PROGRAM + name + rest, |PROGRAM| + |name|;
    NameIsNotOutput(name, rest);
    forall j: nat | |PROGRAM| <= j
      ensures !At(s, j, INVOKE)
    {
      WordInTail(name, rest, j, INVOKE);
      if j >= p {
        SuccessHasNoInvoke(j - p);
      }
    }
    LastAtIsLast(s, INVOKE, |PROGRAM|, |s|);
    assert '\n' !in s;
    assert s[p..p + |SUCCESS|] == SUCCESS;
    assert At(s, p, SUCCESS);
  }

  // ----- the two patterns as regular expressions -----

  /** "Program ", anything, " invoke", anything. */
  function InvokeShape(a: string, b: string): string {
    "Program " + a + " invoke" + b
  }

  /** "Program ", anything, " succes", any number of letters s. */
  function SuccessShape(a: string, n: nat): string {
    "Program " + a + " succes" + seq(n, _ => 's')
  }

  ghost predicate MatchesInvoke(s: string) {
    '\n' !in s && exists a, b :: s == InvokeShape(a, b)
  }

  ghost predicate MatchesSuccess(s: string) {
    '\n' !in s && exists a, n :: s == SuccessShape(a, n)
  }

  lemma InvokeShapeAt(a: string, b: string)
    ensures var s := InvokeShape(a, b);
            PROGRAM <= s && At(s, |PROGRAM| + |a|, INVOKE) && s[|PROGRAM|..|PROGRAM| + |a|] == a
  {
    var s, i := InvokeShape(a, b), |PROGRAM| + |a|;
    assert s[i..i + |INVOKE|] == INVOKE;
    assert s[..|PROGRAM|] == PROGRAM;
  }

  lemma AtIsInvokeShape(s: string, i: nat)
    requires PROGRAM <= s && i >= |PROGRAM| && At(s, i, INVOKE)
    ensures s == InvokeShape(s[|PROGRAM|..i], s[i + |INVOKE|..])
  {
    assert s == s[..|PROGRAM|] + s[|PROGRAM|..i] + s[i..i + |INVOKE|] + s[i + |INVOKE|..];
  }

  /** `Invoked` is the invoke pattern: it matches the same texts, and captures the longest match. */
  lemma InvokePattern(s: string)
    ensures Invoked(s).Some? <==> MatchesInvoke(s)
    ensures Invoked(s).Some? ==>
              && (exists b :: s == InvokeShape(Invoked(s).value, b))
              && (forall a, b :: s == InvokeShape(a, b) ==> |a| <= |Invoked(s).value|)
  {
    LastAtIsLast(s, INVOKE, |PROGRAM|, |s|);
    forall a, b | s == InvokeShape(a, b)
      ensures PROGRAM <= s && At(s, |PROGRAM| + |a|, INVOKE)
    {
      InvokeShapeAt(a, b);
    }
    if Invoked(s).Some? {
      AtIsInvokeShape(s, LastAt(s, INVOKE, |PROGRAM|, |s|).value);
    }
  }

  lemma SuccessShapeAt(a: string, n: nat)
    ensures var s, i := SuccessShape(a, n), |PROGRAM| + |a|;
            && PROGRAM <= s && At(s, i, SUCCESS)
            && forall j :: i + |SUCCESS| <= j < |s| ==> s[j] == 's'
  {
    var s, i := SuccessShape(a, n), |PROGRAM| + |a|;
    assert s[i..i + |SUCCESS|] == SUCCESS;
    assert s[..|PROGRAM|] == PROGRAM;
  }

  lemma AtIsSuccessShape(s: string, i: nat)
    requires PROGRAM <= s && i >= |PROGRAM| && At(s, i, SUCCESS)
    requires forall j :: i + |SUCCESS| <= j < |s| ==> s[j] == 's'
    ensures s == SuccessShape(s[|PROGRAM|..i], |s| - i - |SUCCESS|)
  {
    assert s == s[..|PROGRAM|] + s[|PROGRAM|..i] + s[i..i + |SUCCESS|] + s[i + |SUCCESS|..];
    assert s[i + |SUCCESS|..] == seq(|s| - i - |SUCCESS|, _ => 's');
  }

  /** `Succeeded` is the success pattern. */
  lemma SuccessPattern(s: string)
    ensures Succeeded(s) <==> MatchesSuccess(s)
  {
    if Succeeded(s) {
      var i: nat :| |PROGRAM| <= i <= |s| && At(s, i, SUCCESS)
                    && forall j :: i + |SUCCESS| <= j < |s| ==> s[j] == 's';
      AtIsSuccessShape(s, i);
    }
    if MatchesSuccess(s) {
      var a, n :| s == SuccessShape(a, n);
      SuccessShapeAt(a, n);
    }
  }

  /** What a line does to the stack, pattern by pattern. */
  lemma ChangeByPattern(s: string, key: string -> Option<nat>)
    ensures SystemChange(s, key).Push? <==> MatchesInvoke(s)
    ensures SystemChange(s, key).Pop? <==> MatchesSuccess(s) && !MatchesInvoke(s)
  {
    InvokePattern(s);
    SuccessPattern(s);
  }

  // ----- which texts are output, and of what -----

  predicate IsOutput(s: string) {
    "Program log: " <= s || "Program data: " <= s
  }

  /** A log line holds the payload that follows its prefix. */
  lemma ClassifyLog(payload: string, key: string -> Option<nat>, decode: string -> Option<Bytes>)
    ensures var s := "Program log: " + payload;
            IsOutput(s) && Classify(s, key, decode) == Content(decode(payload), SystemChange(s, key))
  {
    var s := "Program log: " + payload;
    assert s[|PROGRAM_LOG|..] == payload;
  }

  /** A data line holds the payload that follows its prefix. */
  lemma ClassifyData(payload: string, key: string -> Option<nat>, decode: string -> Option<Bytes>)
    ensures var s := "Program data: " + payload;
            IsOutput(s) && Classify(s, key, decode) == Content(decode(payload), SystemChange(s, key))
  {
    var s := "Program data: " + payload;
    assert s[8] == 'd' && PROGRAM_LOG[8] == 'l';
    assert s[|PROGRAM_DATA|..] == payload;
  }

  /** Any other line holds no payload. */
  lemma ClassifyOther(s: string, key: string -> Option<nat>, decode: string -> Option<Bytes>)
    requires !IsOutput(s)
    ensures Classify(s, key, decode) == System(SystemChange(s, key))
  {
  }

  /** A line of program output is noise to a filtered parse exactly when one of the patterns matches it. */
  lemma NoiseIff(text: string, key: string -> Option<nat>, decode: string -> Option<Bytes>)
    requires IsOutput(text)
    ensures Classify(text, key, decode).Content?
    ensures !Quiet(Classify(text, key, decode)) <==> MatchesInvoke(text) || MatchesSuccess(text)
  {
    ChangeByPattern(text, key);
  }

  // ----- from text to events -----

  /**
   * What a transaction does from some point on, with what it logs: the payload of a log or
   * data line, a line of the runtime, an invocation that succeeds, or one that fails and
   * after which the runtime only logs closing lines.
   */
  datatype Story =
    | End
    | Log(payload: string, rest: Story)
    | Data(payload: string, rest: Story)
    | Note(text: string, rest: Story)
    | Succeed(name: string, body: Story, rest: Story)
    | Fail(name: string, body: Story, closing: seq<string>)

  /** A program id: a nonempty token that is a public key. */
  predicate Names(name: string, key: string -> Option<nat>) {
    Token(name) && name != "" && key(name).Some?
  }

  predicate Legible(w: Story, key: string -> Option<nat>) {
    match w
    case End => true
    case Log(_, rest) => Legible(rest, key)
    case Data(_, rest) => Legible(rest, key)
    case Note(_, rest) => Legible(rest, key)
    case Succeed(name, body, rest) => Names(name, key) && Legible(body, key) && Legible(rest, key)
    case Fail(name, body, _) => Names(name, key) && Legible(body, key)
  }

  /** Execution that does not fail. */
  predicate Returns(w: Story) {
    match w
    case End => true
    case Log(_, rest) => Returns(rest)
    case Data(_, rest) => Returns(rest)
    case Note(_, rest) => Returns(rest)
    case Succeed(_, body, rest) => Returns(body) && Returns(rest)
    case Fail(_, _, _) => false
  }

  /** A line of the runtime within an execution: no output, and neither pattern matches it. */
  ghost predicate IsNote(text: string) {
    !IsOutput(text) && !MatchesInvoke(text) && !MatchesSuccess(text)
  }

  /** A line of the runtime after a failure: no output and no success line. */
  ghost predicate IsClosing(text: string) {
    !IsOutput(text) && (MatchesSuccess(text) ==> MatchesInvoke(text))
  }

  /** The runtime logs only its own lines, and what succeeds contains no failure. */
  ghost predicate Credible(w: Story) {
    match w
    case End => true
    case Log(_, rest) => Credible(rest)
    case Data(_, rest) => Credible(rest)
    case Note(text, rest) => IsNote(text) && Credible(rest)
    case Succeed(_, body, rest) => Returns(body) && Credible(body) && Credible(rest)
    case Fail(_, body, closing) => Credible(body) && forall text :: text in closing ==> IsClosing(text)
  }

  /** Outside all invocations there is no output. */
  predicate NoOutput(w: Story) {
    match w
    case End => true
    case Log(_, _) => false
    case Data(_, _) => false
    case Note(_, rest) => NoOutput(rest)
    case Succeed(_, _, rest) => NoOutput(rest)
    case Fail(_, _, _) => true
  }

  /** The story of a transaction: it starts with an invocation. */
  ghost predicate TellsTransaction(w: Story, key: string -> Option<nat>) {
    (w.Succeed? || w.Fail?) && Legible(w, key) && Credible(w) && NoOutput(w)
  }

  /** What a payload amounts to: an event of the running program, if it decodes. */
  function Event(payload: Option<Bytes>, running: nat): seq<(nat, Bytes)> {
    if payload.Some? then [(running, payload.value)] else []
  }

  /** The decoded payloads of a story, each with the program that was running, in order. */
  function Told(w: Story, running: nat, key: string -> Option<nat>, decode: string -> Option<Bytes>): seq<(nat, Bytes)>
    requires Legible(w, key)
  {
    match w
    case End => []
    case Log(payload, rest) => Event(decode(payload), running) + Told(rest, running, key, decode)
    case Data(payload, rest) => Event(decode(payload), running) + Told(rest, running, key, decode)
    case Note(_, rest) => Told(rest, running, key, decode)
    case Succeed(name, body, rest) => Told(body, key(name).value, key, decode) + Told(rest, running, key, decode)
    case Fail(name, body, _) => Told(body, key(name).value, key, decode)
  }

  ghost predicate IsNoise(s: string) {
    MatchesInvoke(s) || MatchesSuccess(s)
  }

  /** No program but the target prints a line that one of the patterns matches. */
  ghost predicate OthersSilent(w: Story, running: nat, target: nat, key: string -> Option<nat>)
    requires Legible(w, key)
  {
    match w
    case End => true
    case Log(payload, rest) =>
      && (running == target || !IsNoise("Program log: " + payload))
      && OthersSilent(rest, running, target, key)
    case Data(payload, rest) =>
      && (running == target || !IsNoise("Program data: " + payload))
      && OthersSilent(rest, running, target, key)
    case Note(_, rest) => OthersSilent(rest, running, target, key)
    case Succeed(name, body, rest) =>
      OthersSilent(body, key(name).value, target, key) && OthersSilent(rest, running, target, key)
    case Fail(name, body, _) => OthersSilent(body, key(name).value, target, key)
  }

  /** A call depth in decimal. */
  function Digits(n: nat): string {
    if n < 10 then ["0123456789"[n]] else Digits(n / 10) + ["0123456789"[n % 10]]
  }

  lemma {:induction false} DigitsAreToken(n: nat)
    ensures Token(Digits(n))
  {
    if n < 10 {
      assert "0123456789"[n] in "0123456789";
    } else {
      DigitsAreToken(n / 10);
      assert "0123456789"[n % 10] in "0123456789";
    }
  }

  function InvokeText(name: string, depth: nat): string {
    PROGRAM + name + InvokeTail(Digits(depth))
  }

  function SuccessText(name: string): string {
    PROGRAM + name + " success"
  }

  /** The log of a story at a call depth. */
  function Write(w: Story, depth: nat): seq<string> {
    match w
    case End => []
    case Log(payload, rest) => ["Program log: " + payload] + Write(rest, depth)
    case Data(payload, rest) => ["Program data: " + payload] + Write(rest, depth)
    case Note(text, rest) => [text] + Write(rest, depth)
    case Succeed(name, body, rest) =>
      [InvokeText(name, depth)] + Write(body, depth + 1) + [SuccessText(name)] + Write(rest, depth)
    case Fail(name, body, closing) => [InvokeText(name, depth)] + Write(body, depth + 1) + closing
  }

  // ----- the story as a trace -----

  function Changes(texts: seq<string>, key: string -> Option<nat>): seq<Line> {
    seq(|texts|, k requires 0 <= k < |texts| => System(SystemChange(texts[k], key)))
  }

  function Meaning(w: Story, key: string -> Option<nat>, decode: string -> Option<Bytes>): Trace
    requires Legible(w, key)
  {
    match w
    case End => Done
    case Log(payload, rest) =>
      Emit(Content(decode(payload), SystemChange("Program log: " + payload, key)), Meaning(rest, key, decode))
    case Data(payload, rest) =>
      Emit(Content(decode(payload), SystemChange("Program data: " + payload, key)), Meaning(rest, key, decode))
    case Note(text, rest) => Emit(System(SystemChange(text, key)), Meaning(rest, key, decode))
    case Succeed(name, body, rest) =>
      Call(key(name).value, Meaning(body, key, decode), Meaning(rest, key, decode))
    case Fail(name, body, closing) =>
      Abort(key(name).value, Meaning(body, key, decode), Changes(closing, key))
  }

  lemma ClosingChanges(closing: seq<string>, key: string -> Option<nat>)
    requires forall text :: text in closing ==> IsClosing(text)
    ensures forall l :: l in Changes(closing, key) ==> Closing(l)
  {
    forall k | 0 <= k < |closing|
      ensures Closing(Changes(closing, key)[k])
    {
      assert IsClosing(closing[k]);
      ChangeByPattern(closing[k], key);
    }
  }

  /** A credible story means a possible trace, and one that returns a complete one. */
  lemma {:induction false} CredibleIsPossible(w: Story, key: string -> Option<nat>, decode: string -> Option<Bytes>)
    requires Legible(w, key) && Credible(w)
    ensures Possible(Meaning(w, key, decode))
    ensures Returns(w) ==> Complete(Meaning(w, key, decode))
    decreases w
  {
    match w
    case End =>
    case Log(_, rest) => CredibleIsPossible(rest, key, decode);
    case Data(_, rest) => CredibleIsPossible(rest, key, decode);
    case Note(text, rest) =>
      ChangeByPattern(text, key);
      CredibleIsPossible(rest, key, decode);
    case Succeed(_, body, rest) =>
      CredibleIsPossible(body, key, decode);
      CredibleIsPossible(rest, key, decode);
    case Fail(_, body, closing) =>
      CredibleIsPossible(body, key, decode);
      ClosingChanges(closing, key);
  }

  lemma {:induction false} NoOutputIsTopLevel(w: Story, key: string -> Option<nat>, decode: string -> Option<Bytes>)
    requires Legible(w, key) && NoOutput(w)
    ensures TopLevel(Meaning(w, key, decode))
    decreases w
  {
    match w
    case End =>
    case Note(_, rest) => NoOutputIsTopLevel(rest, key, decode);
    case Succeed(_, _, rest) => NoOutputIsTopLevel(rest, key, decode);
    case Fail(_, _, _) =>
  }

  /** The trace emits what the story tells. */
  lemma {:induction false} EmittedIsTold(w: Story, running: nat, key: string -> Option<nat>,
                                         decode: string -> Option<Bytes>)
    requires Legible(w, key)
    ensures Emitted(Meaning(w, key, decode), running) == Told(w, running, key, decode)
    decreases w
  {
    match w
    case End =>
    case Log(_, rest) => EmittedIsTold(rest, running, key, decode);
    case Data(_, rest) => EmittedIsTold(rest, running, key, decode);
    case Note(_, rest) => EmittedIsTold(rest, running, key, decode);
    case Succeed(name, body, rest) =>
      EmittedIsTold(body, key(name).value, key, decode);
      EmittedIsTold(rest, running, key, decode);
    case Fail(name, body, _) => EmittedIsTold(body, key(name).value, key, decode);
  }

  lemma {:induction false} SilentIsQuiet(w: Story, running: nat, target: nat, key: string -> Option<nat>,
                                         decode: string -> Option<Bytes>)
    requires Legible(w, key) && OthersSilent(w, running, target, key)
    ensures OthersQuietIn(Meaning(w, key, decode), running, target, None)
    decreases w
  {
    match w
    case End =>
    case Log(payload, rest) =>
      ChangeByPattern("Program log: " + payload, key);
      SilentIsQuiet(rest, running, target, key, decode);
    case Data(payload, rest) =>
      ChangeByPattern("Program data: " + payload, key);
      SilentIsQuiet(rest, running, target, key, decode);
    case Note(_, rest) => SilentIsQuiet(rest, running, target, key, decode);
    case Succeed(name, body, rest) =>
      SilentIsQuiet(body, key(name).value, target, key, decode);
      SilentIsQuiet(rest, running, target, key, decode);
    case Fail(name, body, _) => SilentIsQuiet(body, key(name).value, target, key, decode);
  }

  // ----- classifying the log line by line -----

  function ClassifyAll(texts: seq<string>, key: string -> Option<nat>, decode: string -> Option<Bytes>): seq<Line> {
    seq(|texts|, k requires 0 <= k < |texts| => Classify(texts[k], key, decode))
  }

  lemma ClassifyAppend(a: seq<string>, b: seq<string>, key: string -> Option<nat>, decode: string -> Option<Bytes>)
    ensures ClassifyAll(a + b, key, decode) == ClassifyAll(a, key, decode) + ClassifyAll(b, key, decode)
  {
  }

  lemma ClassifyFirst(text: string, rest: seq<string>, key: string -> Option<nat>, decode: string -> Option<Bytes>)
    ensures ClassifyAll([text] + rest, key, decode) == [Classify(text, key, decode)] + ClassifyAll(rest, key, decode)
  {
  }

  lemma ClassifyInvocation(name: string, depth: nat, body: seq<string>,
                           key: string -> Option<nat>, decode: string -> Option<Bytes>)
    requires Names(name, key)
    ensures ClassifyAll([InvokeText(name, depth)] + body, key, decode)
              == [System(Push(Key(key(name).value)))] + ClassifyAll(body, key, decode)
  {
    DigitsAreToken(depth);
    InvokeLine(name, Digits(depth), key, decode);
    ClassifyFirst(InvokeText(name, depth), body, key, decode);
  }

  lemma ClassifyClosing(closing: seq<string>, key: string -> Option<nat>, decode: string -> Option<Bytes>)
    requires forall text :: text in closing ==> IsClosing(text)
    ensures ClassifyAll(closing, key, decode) == Changes(closing, key)
  {
    forall k | 0 <= k < |closing|
      ensures Classify(closing[k], key, decode) == System(SystemChange(closing[k], key))
    {
      assert IsClosing(closing[k]);
      ClassifyOther(closing[k], key, decode);
    }
  }

  /** The log of a whole successful invocation. */
  lemma ClassifySuccess(name: string, depth: nat, body: seq<string>, rest: seq<string>,
                        key: string -> Option<nat>, decode: string -> Option<Bytes>)
    requires Names(name, key)
    ensures ClassifyAll([InvokeText(name, depth)] + body + [SuccessText(name)] + rest, key, decode)
              == [System(Push(Key(key(name).value)))] + ClassifyAll(body, key, decode) + [System(Pop)]
                 + ClassifyAll(rest, key, decode)
  {
    var opening := [InvokeText(name, depth)] + body;
    ClassifyInvocation(name, depth, body, key, decode);
    SuccessLine(name, key, decode);
    ClassifyFirst(SuccessText(name), rest, key, decode);
    ClassifyAppend(opening, [SuccessText(name)] + rest, key, decode);
    assert opening + [SuccessText(name)] + rest == opening + ([SuccessText(name)] + rest);
  }

  /** Classifying the log of a story line by line flattens the trace that it means. */
  lemma {:induction false} ClassifyUndoesWrite(w: Story, depth: nat,
                                               key: string -> Option<nat>, decode: string -> Option<Bytes>)
    requires Legible(w, key) && Credible(w)
    ensures ClassifyAll(Write(w, depth), key, decode) == Flatten(Meaning(w, key, decode))
    decreases w
  {
    match w
    case End =>
    case Log(payload, rest) =>
      ClassifyLog(payload, key, decode);
      ClassifyFirst("Program log: " + payload, Write(rest, depth), key, decode);
      ClassifyUndoesWrite(rest, depth, key, decode);
    case Data(payload, rest) =>
      ClassifyData(payload, key, decode);
      ClassifyFirst("Program data: " + payload, Write(rest, depth), key, decode);
      ClassifyUndoesWrite(rest, depth, key, decode);
    case Note(text, rest) =>
      ClassifyOther(text, key, decode);
      ClassifyFirst(text, Write(rest, depth), key, decode);
      ClassifyUndoesWrite(rest, depth, key, decode);
    case Succeed(name, body, rest) =>
      ClassifyUndoesWrite(body, depth + 1, key, decode);
      ClassifyUndoesWrite(rest, depth, key, decode);
      ClassifySuccess(name, depth, Write(body, depth + 1), Write(rest, depth), key, decode);
    case Fail(name, body, closing) =>
      ClassifyUndoesWrite(body, depth + 1, key, decode);
      ClassifyInvocation(name, depth, Write(body, depth + 1), key, decode);
      ClassifyClosing(closing, key, decode);
      ClassifyAppend([InvokeText(name, depth)] + Write(body, depth + 1), closing, key, decode);
  }

  /**
   * From text to events: the log of a transaction, whatever payloads its programs print,
   * parses to exactly the decoded payloads of each program, in order.
   */
  lemma WrittenLogParses(w: Story, key: string -> Option<nat>, decode: string -> Option<Bytes>)
    requires TellsTransaction(w, key)
    ensures var events := Parse(ClassifyAll(Write(w, 1), key, decode), None);
            events.Some? && Attributes(events.value, Told(w, key(w.name).value, key, decode))
  {
    ClassifyUndoesWrite(w, 1, key, decode);
    CredibleIsPossible(w, key, decode);
    NoOutputIsTopLevel(w, key, decode);
    EmittedIsTold(w, key(w.name).value, key, decode);
    ParseUndoesFlatten(Meaning(w, key, decode));
  }

  /**
   * The same log parsed for one program gives exactly that program's decoded payloads, if
   * no other program prints a line that looks like an invocation or a success.
   */
  lemma WrittenLogParsesFor(w: Story, target: nat, key: string -> Option<nat>, decode: string -> Option<Bytes>)
    requires TellsTransaction(w, key) && OthersSilent(w, key(w.name).value, target, key)
    ensures var events := Parse(ClassifyAll(Write(w, 1), key, decode), Some(target));
            && events.Some? && events.value.Keys <= {target}
            && Lookup(events.value, target) == Project(Told(w, key(w.name).value, key, decode), target)
  {
    ClassifyUndoesWrite(w, 1, key, decode);
    CredibleIsPossible(w, key, decode);
    NoOutputIsTopLevel(w, key, decode);
    EmittedIsTold(w, key(w.name).value, key, decode);
    SilentIsQuiet(w, key(w.name).value, target, key, decode);
    FilteredParseOfTransaction(Meaning(w, key, decode), target);
  }
}
