/** Action definitions, their validation, and the two ways they are read. */
module Workflow {
  import opened Bytes

  type Name = string
  type Queue = string

  datatype Input = Input(queue: Queue, filter: string, correlateOn: string)

  /** The instructions block, decoded for a subprocess. */
  datatype Instructions = Missing | Malformed(raw: string) | Command(argv: seq<string>, timeout: Option<int>)

  /** A definition but for its name; None is an unset field. */
  datatype Definition = Definition(
    inputs: seq<Input>,
    output: Queue,
    concurrency: Option<int>,
    maxAttempts: Option<int>,
    actor: string,
    instructions: Instructions,
    joinTimeout: Option<int>
  )

  const DEFAULT_CONCURRENCY := 1
  const SUBPROCESS := "subprocess"

  datatype Problem =
    | NoName
    | BadName
    | NoActor
    | UnknownActor
    | NoInputs
    | EmptyQueue(index: nat)
    | BadQueue(index: nat)
    | DuplicateQueue(index: nat)
    | SelfLoop(index: nat)
    | PartialJoin(set_: nat)
    | LoneJoin
    | NoInstructions
    | BadInstructions
    | NoCommand
    | BlankCommand
    | BadTimeout
    | BadOutput
    | BadConcurrency
    | BadMaxAttempts
    | TimeoutWithoutJoin
    | BadJoinTimeout
    | BadExpression

  predicate IsJoin(def: Definition) {
    |def.inputs| > 0 && def.inputs[0].correlateOn != ""
  }

  function Concurrency(def: Definition): int {
    if def.concurrency.None? then DEFAULT_CONCURRENCY else def.concurrency.value
  }

  /** `^[a-z0-9]([a-z0-9.-]*[a-z0-9])?$` */
  predicate QueueName(q: Queue) {
    |q| > 0 && Alnum(q[0]) && Alnum(q[|q| - 1]) && forall c | c in q :: Alnum(c) || c == '.' || c == '-'
  }

  /** `^[a-z0-9]([a-z0-9-]*[a-z0-9])?$` */
  predicate ActionName(n: Name) {
    |n| > 0 && Alnum(n[0]) && Alnum(n[|n| - 1]) && forall c | c in n :: Alnum(c) || c == '-'
  }

  /** What strings.TrimSpace takes off. */
  predicate Space(c: char) {
    || '\U{9}' <= c <= '\U{D}' || c == ' ' || c == '\U{85}' || c == '\U{A0}' || c == '\U{1680}'
    || '\U{2000}' <= c <= '\U{200A}' || c == '\U{2028}' || c == '\U{2029}' || c == '\U{202F}'
    || c == '\U{205F}' || c == '\U{3000}'
  }

  predicate Blank(s: string) {
    forall c | c in s :: Space(c)
  }

  predicate Alnum(c: char) {
    'a' <= c <= 'z' || '0' <= c <= '9'
  }

  /** The index of the first input subscribed to queue. */
  function InputIndexFrom(inputs: seq<Input>, queue: Queue, from: nat): (r: Option<nat>)
    requires from <= |inputs|
    decreases |inputs| - from
    ensures r.Some? ==> from <= r.value < |inputs| && inputs[r.value].queue == queue
    ensures r.Some? ==> forall i | from <= i < r.value :: inputs[i].queue != queue
    ensures r.None? <==> forall i | from <= i < |inputs| :: inputs[i].queue != queue
  {
    if from == |inputs| then None
    else if inputs[from].queue == queue then Some(from)
    else InputIndexFrom(inputs, queue, from + 1)
  }

  function InputIndex(def: Definition, queue: Queue): Option<nat> {
    InputIndexFrom(def.inputs, queue, 0)
  }

  /** What fan-out asks of a definition: a plain scan that gives up at the first correlated input. */
  predicate TakesFrom(inputs: seq<Input>, queue: Queue, from: nat)
    requires from <= |inputs|
    decreases |inputs| - from
  {
    from < |inputs| && inputs[from].correlateOn == "" &&
    (inputs[from].queue == queue || TakesFrom(inputs, queue, from + 1))
  }

  predicate Takes(def: Definition, queue: Queue) {
    TakesFrom(def.inputs, queue, 0)
  }

  /** The rules a stored definition satisfies. */
  ghost predicate Valid(def: Definition) {
    && ValidInputs(def)
    && (def.output != "" ==> QueueName(def.output))
    && Concurrency(def) >= 1
    && (def.maxAttempts.Some? ==> def.maxAttempts.value >= 1)
    && def.actor == SUBPROCESS && ValidInstructions(def.instructions)
    && (def.joinTimeout.Some? ==> IsJoin(def) && def.joinTimeout.value > 0)
  }

  /** An executable to run, and if there is a timeout, time to run it in. */
  predicate ValidInstructions(i: Instructions) {
    i.Command? && i.argv != [] && !Blank(i.argv[0]) && (i.timeout.Some? ==> i.timeout.value > 0)
  }

  ghost predicate ValidInputs(def: Definition) {
    && |def.inputs| > 0
    && (forall i | 0 <= i < |def.inputs| :: ValidInput(def, i))
    && ((forall i | 0 <= i < |def.inputs| :: def.inputs[i].correlateOn == "") ||
        ((forall i | 0 <= i < |def.inputs| :: def.inputs[i].correlateOn != "") && |def.inputs| >= 2))
  }

  /** A well-named queue, not the output, that no earlier input names. */
  ghost predicate ValidInput(def: Definition, i: nat)
    requires i < |def.inputs|
  {
    var queue := def.inputs[i].queue;
    queue != "" && QueueName(queue) && queue !in Queues(def.inputs[..i]) && (def.output != "" ==> queue != def.output)
  }

  /** The queues subscribed to, in definition order. */
  function Queues(inputs: seq<Input>): (qs: seq<Queue>)
    ensures |qs| == |inputs|
    ensures forall i | 0 <= i < |qs| :: qs[i] == inputs[i].queue
  {
    seq(|inputs|, i requires 0 <= i < |inputs| => inputs[i].queue)
  }

  /** How many of the inputs carry a correlate_on. */
  function Correlated(inputs: seq<Input>): (n: nat)
    ensures n <= |inputs|
    ensures n == 0 <==> forall i | 0 <= i < |inputs| :: inputs[i].correlateOn == ""
    ensures n == |inputs| <==> forall i | 0 <= i < |inputs| :: inputs[i].correlateOn != ""
  {
    if inputs == [] then 0
    else
      var last := |inputs| - 1;
      var rest := inputs[..last];
      assert forall i | 0 <= i < last :: rest[i] == inputs[i];
      Correlated(rest) + if inputs[last].correlateOn != "" then 1 else 0
  }

  lemma OneBadInput(def: Definition, i: nat)
    requires i < |def.inputs| && !ValidInput(def, i)
    ensures !ValidInputs(def)
  {
  }

  /** The set of queues named so far. */
  ghost predicate Seen(seen: set<Queue>, inputs: seq<Input>) {
    forall q :: q in seen <==> q in Queues(inputs)
  }

  lemma OneMoreInput(inputs: seq<Input>, i: nat, seen: set<Queue>)
    requires i < |inputs| && Seen(seen, inputs[..i])
    ensures Seen(seen + {inputs[i].queue}, inputs[..i + 1])
    ensures Correlated(inputs[..i + 1]) == Correlated(inputs[..i]) + if inputs[i].correlateOn != "" then 1 else 0
  {
    assert inputs[..i + 1][..i] == inputs[..i];
    assert Queues(inputs[..i + 1]) == Queues(inputs[..i]) + [inputs[i].queue];
  }

  /** With every input valid by itself, only the correlated count is left to judge. */
  lemma AllInputs(def: Definition)
    requires |def.inputs| > 0 && forall k | 0 <= k < |def.inputs| :: ValidInput(def, k)
    ensures def.inputs[..|def.inputs|] == def.inputs
    ensures ValidInputs(def) <==>
      Correlated(def.inputs) == 0 || (Correlated(def.inputs) == |def.inputs| && |def.inputs| >= 2)
  {
  }

  /** What each problem says of an input list. An input is only reported when those before it are in order. */
  ghost predicate HasInputProblem(def: Definition, p: Problem) {
    match p
    case NoInputs => def.inputs == []
    case EmptyQueue(i) => FirstBad(def, i) && def.inputs[i].queue == ""
    case BadQueue(i) => FirstBad(def, i) && def.inputs[i].queue != "" && !QueueName(def.inputs[i].queue)
    case DuplicateQueue(i) => FirstBad(def, i) && def.inputs[i].queue in Queues(def.inputs[..i])
    case SelfLoop(i) => FirstBad(def, i) && def.output != "" && def.inputs[i].queue == def.output
    case PartialJoin(n) => n == Correlated(def.inputs) && 0 < n < |def.inputs|
    case LoneJoin => |def.inputs| == 1 && def.inputs[0].correlateOn != ""
    case _ => false
  }

  ghost predicate FirstBad(def: Definition, i: nat) {
    i < |def.inputs| && !ValidInput(def, i) && forall k | 0 <= k < i :: ValidInput(def, k)
  }

  /** One input against those before it. */
  method CheckInput(def: Definition, i: nat, seen: set<Queue>) returns (r: Option<Problem>)
    requires i < |def.inputs| && Seen(seen, def.inputs[..i]) && forall k | 0 <= k < i :: ValidInput(def, k)
    ensures r.None? <==> ValidInput(def, i)
    ensures r.Some? ==> HasInputProblem(def, r.value)
  {
    var queue := def.inputs[i].queue;
    if queue == "" {
      return Some(EmptyQueue(i));
    }
    if !QueueName(queue) {
      return Some(BadQueue(i));
    }
    if queue in seen {
      return Some(DuplicateQueue(i));
    }
    if def.output != "" && queue == def.output {
      return Some(SelfLoop(i));
    }
    return None;
  }

  /** Accepts exactly the valid input lists; a problem is one the list has, and names the first offending input. */
  method ValidateInputs(def: Definition) returns (r: Option<Problem>)
    ensures r.None? <==> ValidInputs(def)
    ensures r.Some? ==> HasInputProblem(def, r.value)
  {
    if |def.inputs| == 0 {
      return Some(NoInputs);
    }
    var seen: set<Queue> := {};
    var correlated := 0;
    assert def.inputs[..0] == [] && Seen(seen, []) && Correlated([]) == 0;
    hide *;
    for i := 0 to |def.inputs|
      invariant Seen(seen, def.inputs[..i])
      invariant forall k | 0 <= k < i :: ValidInput(def, k)
      invariant correlated == Correlated(def.inputs[..i])
    {
      r, seen, correlated := NextInput(def, i, seen, correlated);
      if r.Some? {
        return;
      }
    }
    r := CheckJoin(def, correlated);
  }

  /** One input more. */
  method NextInput(def: Definition, i: nat, seen: set<Queue>, correlated: nat)
    returns (r: Option<Problem>, after: set<Queue>, count: nat)
    requires i < |def.inputs| && Seen(seen, def.inputs[..i]) && correlated == Correlated(def.inputs[..i])
    requires forall k | 0 <= k < i :: ValidInput(def, k)
    ensures r.Some? ==> HasInputProblem(def, r.value) && !ValidInputs(def)
    ensures r.None? ==>
      ValidInput(def, i) && Seen(after, def.inputs[..i + 1]) && count == Correlated(def.inputs[..i + 1])
  {
    hide *;
    r := CheckInput(def, i, seen);
    after, count := seen, correlated;
    if r.Some? {
      OneBadInput(def, i);
      return;
    }
    OneMoreInput(def.inputs, i, seen);
    after := seen + {def.inputs[i].queue};
    if def.inputs[i].correlateOn != "" {
      count := correlated + 1;
    }
  }

  /** A join is all or nothing, and of at least two inputs. */
  method CheckJoin(def: Definition, correlated: nat) returns (r: Option<Problem>)
    requires |def.inputs| > 0 && (forall k | 0 <= k < |def.inputs| :: ValidInput(def, k))
    requires correlated == Correlated(def.inputs[..|def.inputs|])
    ensures r.None? <==> ValidInputs(def)
    ensures r.Some? ==> HasInputProblem(def, r.value)
  {
    hide ValidInput;
    AllInputs(def);
    if correlated > 0 && correlated != |def.inputs| {
      return Some(PartialJoin(correlated));
    }
    if correlated > 0 && |def.inputs| < 2 {
      return Some(LoneJoin);
    }
    return None;
  }

  method ValidateInstructions(i: Instructions) returns (r: Option<Problem>)
    ensures r.None? <==> ValidInstructions(i)
    ensures r.Some? ==> HasInstructionProblem(i, r.value)
  {
    if i.Missing? {
      return Some(NoInstructions);
    }
    if i.Malformed? {
      return Some(BadInstructions);
    }
    if |i.argv| == 0 {
      return Some(NoCommand);
    }
    if Blank(i.argv[0]) {
      return Some(BlankCommand);
    }
    if i.timeout.Some? && i.timeout.value <= 0 {
      return Some(BadTimeout);
    }
    return None;
  }

  predicate HasInstructionProblem(i: Instructions, p: Problem) {
    match p
    case NoInstructions => i.Missing?
    case BadInstructions => i.Malformed?
    case NoCommand => i.Command? && i.argv == []
    case BlankCommand => i.Command? && i.argv != [] && Blank(i.argv[0])
    case BadTimeout => i.Command? && i.timeout.Some? && i.timeout.value <= 0
    case _ => false
  }

  /** What each problem says of a named definition. */
  ghost predicate HasProblem(name: Name, def: Definition, compiles: Definition -> bool, p: Problem) {
    match p
    case NoName => name == ""
    case BadName => name != "" && !ActionName(name)
    case NoActor => def.actor == ""
    case UnknownActor => def.actor != "" && def.actor != SUBPROCESS
    case BadOutput => def.output != "" && !QueueName(def.output)
    case BadConcurrency => Concurrency(def) < 1
    case BadMaxAttempts => def.maxAttempts.Some? && def.maxAttempts.value < 1
    case TimeoutWithoutJoin => def.joinTimeout.Some? && !IsJoin(def)
    case BadJoinTimeout => def.joinTimeout.Some? && def.joinTimeout.value <= 0
    case BadExpression => !compiles(def)
    case _ => HasInputProblem(def, p) || HasInstructionProblem(def.instructions, p)
  }

  /** What may be registered: the expressions must compile, too. */
  ghost predicate Registrable(name: Name, def: Definition, compiles: Definition -> bool) {
    ActionName(name) && Valid(def) && compiles(def)
  }

  /** The whole registration check, in its order; a problem is one the definition has. */
  method Validate(name: Name, def: Definition, compiles: Definition -> bool) returns (r: Option<Problem>)
    ensures r.None? <==> Registrable(name, def, compiles)
    ensures r.Some? ==> HasProblem(name, def, compiles, r.value)
  {
    if name == "" {
      return Some(NoName);
    }
    if !ActionName(name) {
      return Some(BadName);
    }
    if def.actor == "" {
      return Some(NoActor);
    }
    if def.actor != SUBPROCESS {
      return Some(UnknownActor);
    }
    r := ValidateInputs(def);
    if r.Some? {
      return;
    }
    r := ValidateInstructions(def.instructions);
    if r.Some? {
      return;
    }
    r := ValidateSettings(def, compiles);
  }

  /** The checks of the remaining fields, and last of the expressions. */
  method ValidateSettings(def: Definition, compiles: Definition -> bool) returns (r: Option<Problem>)
    requires ValidInputs(def) && def.actor == SUBPROCESS && ValidInstructions(def.instructions)
    ensures r.None? <==> Valid(def) && compiles(def)
    ensures r.Some? ==> forall name :: HasProblem(name, def, compiles, r.value)
  {
    if def.output != "" && !QueueName(def.output) {
      return Some(BadOutput);
    }
    if def.concurrency.Some? && def.concurrency.value < 1 {
      return Some(BadConcurrency);
    }
    if def.maxAttempts.Some? && def.maxAttempts.value < 1 {
      return Some(BadMaxAttempts);
    }
    if def.joinTimeout.Some? {
      if !IsJoin(def) {
        return Some(TimeoutWithoutJoin);
      }
      if def.joinTimeout.value <= 0 {
        return Some(BadJoinTimeout);
      }
    }
    if !compiles(def) {
      return Some(BadExpression);
    }
    return None;
  }

  /**
   * Fan-out and dispatch read a definition differently: fan-out scans with its own loop, dispatch asks
   * IsJoin and InputIndex. Validation is what makes the two agree.
   */
  lemma FanOutAgreesWithDispatch(def: Definition, queue: Queue)
    requires ValidInputs(def)
    ensures Takes(def, queue) <==> !IsJoin(def) && InputIndex(def, queue).Some?
  {
    TakesScan(def, queue, 0);
  }

  /** What the two readings come to, input by input. */
  lemma SubscriptionIs(def: Definition, queue: Queue)
    requires ValidInputs(def)
    ensures IsJoin(def) <==> forall i | 0 <= i < |def.inputs| :: def.inputs[i].correlateOn != ""
    ensures Takes(def, queue) <==>
      && (forall i | 0 <= i < |def.inputs| :: def.inputs[i].correlateOn == "")
      && exists i | 0 <= i < |def.inputs| :: def.inputs[i].queue == queue
  {
    TakesScan(def, queue, 0);
    assert def.inputs[0].correlateOn == "" || def.inputs[0].correlateOn != "";
  }

  lemma {:induction false} TakesScan(def: Definition, queue: Queue, from: nat)
    requires ValidInputs(def) && from <= |def.inputs|
    ensures TakesFrom(def.inputs, queue, from) <==>
      !IsJoin(def) && exists i | from <= i < |def.inputs| :: def.inputs[i].queue == queue
    decreases |def.inputs| - from
  {
    if from < |def.inputs| {
      TakesScan(def, queue, from + 1);
      if IsJoin(def) {
        assert def.inputs[from].correlateOn != "";
      }
    }
  }

  const HALF_JOIN := Definition([Input("a", "", ""), Input("b", "", "payload.k")], "", None, None, SUBPROCESS,
                                Command(["./run.sh"], None), None)

  /** Without validation they disagree: a half-correlated definition accrues deliveries that dispatch cancels. */
  lemma HalfJoinDisagrees()
    ensures var def := HALF_JOIN;
      !ValidInputs(def) && !IsJoin(def) && InputIndex(def, "b").Some? && !Takes(def, "b")
  {
    var inputs := [Input("a", "", ""), Input("b", "", "payload.k")];
    assert InputIndexFrom(inputs, "b", 1) == Some(1);
    assert InputIndexFrom(inputs, "b", 0) == Some(1);
    assert !TakesFrom(inputs, "b", 1);
    assert inputs[0].correlateOn == "" && inputs[1].correlateOn != "";
  }

  /** Names as the patterns have them: dots in queues only, no sign at either end, no capitals. */
  lemma NamesLookLike()
    ensures QueueName("task.new-2") && !ActionName("task.new-2") && ActionName("task-2") && ActionName("7")
    ensures !QueueName("") && !QueueName(".task") && !QueueName("task-") && !QueueName("Task") && !ActionName("ta_sk")
  {
    assert '.' in "task.new-2" && '_' in "ta_sk";
    assert "task-"[4] == '-';
    forall c | c in "task.new-2" ensures Alnum(c) || c == '.' || c == '-' {
    }
    forall c | c in "task-2" ensures Alnum(c) || c == '-' {
    }
  }
}
