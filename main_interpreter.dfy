/** The evaluator of `src/main/interpreter.kt`: an `Interpreter` object that
    holds the variables, the stored program lines and the program counter,
    and executes one parsed command at a time.  Every command answers
    whether it was "ordinary" (`true`: RUN moves on to the next stored line)
    or moved the program counter itself (`false`).

    The model has two layers.  Ghost functions over a `Machine` value
    (`ExecCommand`, `ExecLine`, `RunLoop`, ...) state what each command
    does; the `Interpreter` class updates its fields in place, as the
    source does, and each of its methods is proved to agree with those
    functions.  `println` appends to the `output` field. */
module MainInterpreter {
  import opened Common
  import opened MainOperators
  import opened MainParser

  datatype ExprResult = ResStr(text: string) | ResInt(number: int)

  datatype Line = Line(original: string, command: Command)

  /** The interpreter's fields and everything it has printed. */
  datatype Machine = Machine(
    variables: map<string, ExprResult>,
    lines: map<int, Line>,
    pc: int,
    output: seq<string>)

  /** A command's Boolean answer and the machine after it. */
  datatype Step = Step(ordinary: bool, machine: Machine)

  /** An expression's result and the variables after reading it (reading an
      unset variable binds it to 0). */
  datatype Evaluated = Evaluated(result: Result<ExprResult>, variables: map<string, ExprResult>)

  const DivisionByZero := "java.lang.ArithmeticException: / by zero"
  const NotImplemented := "kotlin.NotImplementedError: An operation is not implemented."
  const EmptyList := "java.util.NoSuchElementException: List is empty."

  // ---------------------------------------------------------------------
  // Values and their renderings
  // ---------------------------------------------------------------------

  /** `toString()` of an `ExprResult`, as it appears in error messages. */
  function ValueText(v: ExprResult): string
  {
    match v
    case ResStr(s) => "ResStr(value=" + s + ")"
    case ResInt(n) => "ResInt(value=" + IntToString(n) + ")"
  }

  /** What `println(value)` prints for a value. */
  function Shown(v: ExprResult): string
  {
    match v
    case ResStr(s) => s
    case ResInt(n) => IntToString(n)
  }

  function Flag(b: bool): ExprResult { ResInt(if b then 1 else 0) }

  // ---------------------------------------------------------------------
  // Expressions (interpretExpression, interpretBinaryExpression,
  // interpretIdentifier)
  // ---------------------------------------------------------------------

  function Identifiers(e: Expression): set<string>
  {
    match e
    case ExpIdentifier(name) => {name}
    case ExpUnr(_, inner) => Identifiers(inner)
    case ExpBin(l, _, r) => Identifiers(l) + Identifiers(r)
    case _ => {}
  }

  predicate HasUnary(e: Expression)
  {
    match e
    case ExpUnr(_, _) => true
    case ExpBin(l, _, r) => HasUnary(l) || HasUnary(r)
    case _ => false
  }

  predicate HasDivision(e: Expression)
  {
    match e
    case ExpBin(l, op, r) => op == Div || op == Mod || HasDivision(l) || HasDivision(r)
    case ExpUnr(_, inner) => HasDivision(inner)
    case _ => false
  }

  /** `after` is `before` plus default bindings (`ResInt(0)`) for some of the
      names in `names`: reading variables never overwrites one. */
  predicate Extends(before: map<string, ExprResult>, after: map<string, ExprResult>, names: set<string>)
  {
    && (forall x :: x in before ==> x in after && after[x] == before[x])
    && (forall x :: x in after && x !in before ==> after[x] == ResInt(0) && x in names)
  }

  /** `variables.getOrPut(name) { ResInt(0) }`. */
  function Lookup(vars: map<string, ExprResult>, name: string): (r: Evaluated)
    ensures r.result.Ok? && name in r.variables && r.variables[name] == r.result.value
    ensures r.variables.Keys == vars.Keys + {name}
    ensures Extends(vars, r.variables, {name})
  {
    if name in vars then Evaluated(Ok(vars[name]), vars)
    else Evaluated(Ok(ResInt(0)), vars[name := ResInt(0)])
  }

  /** One binary operator applied to two values (the `when (expression.op)`
      of `interpretBinaryExpression`).  Kotlin's `/` and `%` truncate and
      throw on a zero divisor. */
  function ApplyBinary(op: BinaryOp, a: ExprResult, b: ExprResult): (o: Outcome<Result<ExprResult>>)
    ensures !o.OutOfFuel?
  {
    var ints := a.ResInt? && b.ResInt?;
    var strs := a.ResStr? && b.ResStr?;
    var l, r := ValueText(a), ValueText(b);
    match op
    case Plus =>
      if ints then Returns(Ok(ResInt(a.number + b.number)))
      else if strs then Returns(Ok(ResStr(a.text + b.text)))
      else Returns(Err("Cannot add " + l + " to " + r))
    case Minus =>
      if ints then Returns(Ok(ResInt(a.number - b.number)))
      else Returns(Err("Cannot subtract " + l + " to " + r))
    case Mult =>
      if ints then Returns(Ok(ResInt(a.number * b.number)))
      else Returns(Err("Cannot multiply " + l + " to " + r))
    case Div =>
      if !ints then Returns(Err("Cannot divide " + l + " to " + r))
      else if b.number == 0 then Throws(DivisionByZero)
      else Returns(Ok(ResInt(TruncDiv(a.number, b.number))))
    case Mod =>
      if !ints then Returns(Err("Cannot modulus " + l + " to " + r))
      else if b.number == 0 then Throws(DivisionByZero)
      else Returns(Ok(ResInt(TruncMod(a.number, b.number))))
    case Equal =>
      if ints then Returns(Ok(Flag(a.number == b.number)))
      else if strs then Returns(Ok(Flag(a.text == b.text)))
      else Returns(Err("Cannot compare " + l + " = " + r))
    case Less =>
      if ints then Returns(Ok(Flag(a.number - b.number < 0)))
      else Returns(Err("Cannot compare " + l + " < " + r))
    case LessEq =>
      if ints then Returns(Ok(Flag(a.number - b.number <= 0)))
      else Returns(Err("Cannot compare " + l + " <= " + r))
    case Great =>
      if ints then Returns(Ok(Flag(a.number - b.number > 0)))
      else Returns(Err("Cannot compare " + l + " > " + r))
    case GreatEq =>
      if ints then Returns(Ok(Flag(a.number - b.number >= 0)))
      else Returns(Err("Cannot compare " + l + " >= " + r))
    case Diff =>
      if ints then Returns(Ok(Flag(a.number != b.number)))
      else if strs then Returns(Ok(Flag(a.text != b.text)))
      else Returns(Err("Cannot compare " + l + " <> " + r))
    case And =>
      if ints then Returns(Ok(Flag(a.number > 0 && b.number > 0)))
      else Returns(Err("Cannot compare " + l + " & " + r))
    case Or =>
      if ints then Returns(Ok(Flag(a.number > 0 || b.number > 0)))
      else Returns(Err("Cannot compare " + l + " & " + r))
  }

  /** `interpretExpression`: a unary expression reaches Kotlin's `TODO()`. */
  function Evaluate(vars: map<string, ExprResult>, e: Expression): (o: Outcome<Evaluated>)
    ensures !o.OutOfFuel?
    ensures o.Returns? ==> Extends(vars, o.value.variables, Identifiers(e))
    decreases e, 1
  {
    match e
    case ExpInt(n) => Returns(Evaluated(Ok(ResInt(n)), vars))
    case ExpStr(s) => Returns(Evaluated(Ok(ResStr(s)), vars))
    case ExpIdentifier(name) => Returns(Lookup(vars, name))
    case ExpUnr(_, _) => Throws(NotImplemented)
    case ExpBin(l, op, r) => EvaluateBinary(vars, l, op, r)
  }

  /** `interpretBinaryExpression`: both operands are read (left first, each
      possibly binding defaults) before either's error is returned. */
  function EvaluateBinary(vars: map<string, ExprResult>, l: Expression, op: BinaryOp, r: Expression): (o: Outcome<Evaluated>)
    ensures !o.OutOfFuel?
    ensures o.Returns? ==> Extends(vars, o.value.variables, Identifiers(l) + Identifiers(r))
    decreases ExpBin(l, op, r), 0
  {
    var left := Evaluate(vars, l);
    if left.Throws? then Throws(left.exception)
    else
      var right := Evaluate(left.value.variables, r);
      if right.Throws? then Throws(right.exception)
      else if left.value.result.Err? then Returns(Evaluated(left.value.result, right.value.variables))
      else if right.value.result.Err? then Returns(right.value)
      else
        var applied := ApplyBinary(op, left.value.result.value, right.value.result.value);
        if applied.Throws? then Throws(applied.exception)
        else Returns(Evaluated(applied.value, right.value.variables))
  }

  // ---------------------------------------------------------------------
  // Commands on a machine value
  // ---------------------------------------------------------------------

  /** The `when` of `interpretLine` has no `OnErr` branch: the model runs
      only commands free of `OnErr`, at any depth. */
  predicate Handled(c: Command)
    decreases c, 1
  {
    match c
    case OnErr(_) => false
    case StoreCommand(_, inner) => Handled(inner)
    case If(_, consequent) => ResultHandled(consequent)
    case Multiple(cmds) => forall i :: 0 <= i < |cmds| ==> ResultHandled(cmds[i])
    case _ => true
  }

  predicate ResultHandled(cr: CommandResult)
    decreases cr, 0
  {
    cr.command.Ok? ==> Handled(cr.command.value)
  }

  predicate AllHandled(lines: map<int, Line>)
  {
    forall k :: k in lines ==> Handled(lines[k].command)
  }

  function PrintLine(m: Machine, text: string): Machine
  {
    m.(output := m.output + [text])
  }

  /** What `interpretPrint` prints for a result. */
  function ResultText(r: Result<ExprResult>): string
  {
    match r
    case Ok(v) => Shown(v)
    case Err(e) => e
  }

  /** `interpretPrint`: prints exactly one line and changes no program line. */
  function PrintEffect(m: Machine, e: Expression): (o: Outcome<Machine>)
    ensures !o.OutOfFuel?
    ensures o.Returns? ==> o.value.lines == m.lines && o.value.pc == m.pc
    ensures o.Returns? ==> |o.value.output| == |m.output| + 1 && o.value.output[..|m.output|] == m.output
    ensures o.Returns? ==> Extends(m.variables, o.value.variables, Identifiers(e))
  {
    match e
    case ExpStr(s) => Returns(PrintLine(m, s))
    case ExpInt(n) => Returns(PrintLine(m, IntToString(n)))
    case ExpBin(l, op, r) =>
      var ev := EvaluateBinary(m.variables, l, op, r);
      if ev.Throws? then Throws(ev.exception)
      else Returns(PrintLine(m.(variables := ev.value.variables), ResultText(ev.value.result)))
    case ExpIdentifier(name) =>
      var ev := Lookup(m.variables, name);
      Returns(PrintLine(m.(variables := ev.variables), Shown(ev.result.value)))
    case ExpUnr(_, _) => Returns(PrintLine(m, "*** Cannot interpret command: Print"))
  }

  /** `interpretAssignment`: binds the name on success, prints the error
      otherwise. */
  function AssignEffect(m: Machine, name: string, e: Expression): (o: Outcome<Machine>)
    ensures !o.OutOfFuel?
    ensures o.Returns? ==> o.value.lines == m.lines && o.value.pc == m.pc
  {
    var ev := Evaluate(m.variables, e);
    if ev.Throws? then Throws(ev.exception)
    else match ev.value.result
      case Ok(v) => Returns(m.(variables := ev.value.variables[name := v]))
      case Err(msg) => Returns(PrintLine(m.(variables := ev.value.variables), msg))
  }

  /** The originals of the lines at `keys`, in that order (keys without a
      line print nothing). */
  function ListOutput(lines: map<int, Line>, keys: seq<int>): seq<string>
  {
    if keys == [] then []
    else
      var last := keys[|keys| - 1];
      ListOutput(lines, keys[..|keys| - 1]) + (if last in lines then [lines[last].original] else [])
  }

  lemma ListOutputSnoc(lines: map<int, Line>, keys: seq<int>, k: int)
    ensures ListOutput(lines, keys + [k]) == ListOutput(lines, keys) + (if k in lines then [lines[k].original] else [])
  {
    assert (keys + [k])[..|keys|] == keys;
  }

  /** `listProgramInMemory`. */
  ghost function ListEffect(m: Machine): Machine
  {
    m.(output := m.output + ListOutput(m.lines, SortedKeys(m.lines.Keys)))
  }

  /** The line numbers `runProgram` walks: the stored keys from `start` up,
      ascending, fixed when RUN starts. */
  ghost function Selection(lines: map<int, Line>, start: int): (keys: seq<int>)
    ensures StrictlyIncreasing(keys)
    ensures forall i :: 0 <= i < |keys| ==> keys[i] in lines && keys[i] >= start
  {
    var keys := SortedKeys(set k | k in lines && k >= start);
    assert forall i :: 0 <= i < |keys| ==> keys[i] in keys;
    keys
  }

  function Continue(o: Outcome<Machine>, ordinary: bool): Outcome<Step>
  {
    match o
    case Returns(m) => Returns(Step(ordinary, m))
    case Throws(x) => Throws(x)
    case OutOfFuel => OutOfFuel
  }

  /** The Boolean a method returns for a step. */
  function Verdict(o: Outcome<Step>): Outcome<bool>
  {
    match o
    case Returns(s) => Returns(s.ordinary)
    case Throws(x) => Throws(x)
    case OutOfFuel => OutOfFuel
  }

  /** How a method that returns nothing ends. */
  function Status<T>(o: Outcome<T>): Outcome<()>
  {
    match o
    case Returns(_) => Returns(())
    case Throws(x) => Throws(x)
    case OutOfFuel => OutOfFuel
  }

  /** A method that returned normally answers `ordinary`. */
  function Answer(o: Outcome<()>, ordinary: bool): Outcome<bool>
  {
    match o
    case Returns(_) => Returns(ordinary)
    case Throws(x) => Throws(x)
    case OutOfFuel => OutOfFuel
  }

  /** `interpretCommand`: a parse error is printed and counts as ordinary. */
  ghost function ExecCommand(fuel: nat, m: Machine, cr: CommandResult): (o: Outcome<Step>)
    requires ResultHandled(cr) && AllHandled(m.lines)
    ensures o.Returns? ==> AllHandled(o.value.machine.lines)
    decreases fuel, 3
  {
    match cr.command
    case Err(e) => Returns(Step(true, PrintLine(m, e)))
    case Ok(c) => ExecLine(fuel, m, Line(cr.original, c))
  }

  /** `interpretLine`.  Every nested execution (RUN, GOSUB, the consequent
      of IF, the parts of a `Multiple`) costs one unit of `fuel`. */
  ghost function ExecLine(fuel: nat, m: Machine, line: Line): (o: Outcome<Step>)
    requires Handled(line.command) && AllHandled(m.lines)
    ensures o.Returns? ==> AllHandled(o.value.machine.lines)
    decreases fuel, 2
  {
    match line.command
    case Print(e) => Continue(PrintEffect(m, e), true)
    case Assignment(name, e) => Continue(AssignEffect(m, name, e), true)
    case StoreCommand(n, c) => Returns(Step(true, m.(lines := m.lines[n := Line(line.original, c)])))
    case Run(start) => if fuel == 0 then OutOfFuel else Continue(StartRun(fuel - 1, m, start), true)
    case ListCommand => Returns(Step(true, ListEffect(m)))
    case GoTo(n) => Returns(Step(false, m.(pc := n)))
    case GoSub(n) => GoSubStep(fuel, m, n)
    case If(cond, consequent) => IfStep(fuel, m, cond, consequent)
    case Return => Returns(Step(true, m))
    case Pop => Returns(Step(false, m))
    case ExpREM => Returns(Step(true, m))
    case Multiple(cmds) => if fuel == 0 then OutOfFuel else Continue(ExecAll(fuel - 1, m, cmds), true)
  }

  /** GOSUB runs the stored line in place (no return address is kept) and
      is ordinary whatever that line answered; a missing line does nothing. */
  ghost function GoSubStep(fuel: nat, m: Machine, n: int): (o: Outcome<Step>)
    requires AllHandled(m.lines)
    ensures o.Returns? ==> AllHandled(o.value.machine.lines)
    decreases fuel, 1
  {
    if n !in m.lines then Returns(Step(true, m))
    else if fuel == 0 then OutOfFuel
    else
      var o := ExecLine(fuel - 1, m, m.lines[n]);
      if o.Returns? then Returns(Step(true, o.value.machine)) else o
  }

  /** `interpretIf`: the consequent runs, and answers for the IF, only when
      the condition is an integer above 0; otherwise the IF is ordinary. */
  ghost function IfStep(fuel: nat, m: Machine, cond: Expression, consequent: CommandResult): (o: Outcome<Step>)
    requires ResultHandled(consequent) && AllHandled(m.lines)
    ensures o.Returns? ==> AllHandled(o.value.machine.lines)
    decreases fuel, 1
  {
    var ev := Evaluate(m.variables, cond);
    if ev.Throws? then Throws(ev.exception)
    else
      var m1 := m.(variables := ev.value.variables);
      if IsPositive(ev.value.result) then
        (if fuel == 0 then OutOfFuel else ExecCommand(fuel - 1, m1, consequent))
      else Returns(Step(true, m1))
  }

  /** The condition test of `interpretIf`. */
  predicate IsPositive(r: Result<ExprResult>)
  {
    r.Ok? && r.value.ResInt? && r.value.number > 0
  }

  /** `commands.forEach { interpretCommand(it) }`: every part runs, whatever
      the previous ones answered. */
  ghost function ExecAll(fuel: nat, m: Machine, cmds: seq<CommandResult>): (o: Outcome<Machine>)
    requires (forall i :: 0 <= i < |cmds| ==> ResultHandled(cmds[i])) && AllHandled(m.lines)
    ensures o.Returns? ==> AllHandled(o.value.lines)
    decreases fuel, 4 + |cmds|
  {
    if cmds == [] then Returns(m)
    else
      var o := ExecCommand(fuel, m, cmds[0]);
      if o.Returns? then ExecAll(fuel, o.value.machine, cmds[1..])
      else if o.Throws? then Throws(o.exception)
      else OutOfFuel
  }

  /** `runProgram`: `.first()` of an empty selection throws. */
  ghost function StartRun(fuel: nat, m: Machine, start: int): (o: Outcome<Machine>)
    requires AllHandled(m.lines)
    ensures o.Returns? ==> AllHandled(o.value.lines)
    decreases fuel, 1
  {
    var keys := Selection(m.lines, start);
    if keys == [] then Throws(EmptyList) else RunLoop(fuel, keys, m.(pc := keys[0]))
  }

  /** The `while (true)` loop of `runProgram`.  It stops when no line is
      stored at `pc` or after the last selected key; a command that is not
      ordinary leaves `pc` where the command put it; a `pc` outside the
      selection continues at the first selected key (`indexOf` gives -1). */
  ghost function RunLoop(fuel: nat, keys: seq<int>, m: Machine): (o: Outcome<Machine>)
    requires AllHandled(m.lines)
    ensures o.Returns? ==> AllHandled(o.value.lines)
    decreases fuel, 0
  {
    if fuel == 0 then OutOfFuel
    else if m.pc !in m.lines then Returns(m)
    else
      var o := ExecLine(fuel - 1, m, m.lines[m.pc]);
      if o.Throws? then Throws(o.exception)
      else if o.OutOfFuel? then OutOfFuel
      else if !o.value.ordinary then RunLoop(fuel - 1, keys, o.value.machine)
      else
        var next := IndexOf(keys, o.value.machine.pc) + 1;
        if next < |keys| then RunLoop(fuel - 1, keys, o.value.machine.(pc := keys[next]))
        else Returns(o.value.machine)
  }

  // ---------------------------------------------------------------------
  // The Interpreter object
  // ---------------------------------------------------------------------

  /** `class Interpreter`, with `println` appending to `output`.  The `fuel`
      parameter of the executing methods bounds nested executions exactly
      as in the functions they are proved against. */
  class Interpreter {
    var variables: map<string, ExprResult>
    var lines: map<int, Line>
    var pc: int
    var output: seq<string>

    function Current(): Machine
      reads this
    {
      Machine(variables, lines, pc, output)
    }

    /** Every stored line is one `interpretLine` has a branch for. */
    predicate Valid()
      reads this
    {
      AllHandled(lines)
    }

    constructor ()
      ensures Current() == Machine(map[], map[], -1, []) && Valid()
    {
      variables := map[];
      lines := map[];
      pc := -1;
      output := [];
    }

    method Println(text: string)
      modifies this
      ensures Current() == PrintLine(old(Current()), text)
    {
      output := output + [text];
    }

    method InterpretCommand(fuel: nat, command: CommandResult) returns (r: Outcome<bool>)
      requires Valid() && ResultHandled(command)
      modifies this
      ensures r == Verdict(ExecCommand(fuel, old(Current()), command))
      ensures r.Returns? ==> Current() == ExecCommand(fuel, old(Current()), command).value.machine && Valid()
      decreases fuel, 3
    {
      match command.command {
        case Ok(c) =>
          r := InterpretLine(fuel, Line(command.original, c));
        case Err(e) =>
          Println(e);
          r := Returns(true);
      }
    }

    method InterpretLine(fuel: nat, line: Line) returns (r: Outcome<bool>)
      requires Valid() && Handled(line.command)
      modifies this
      ensures r == Verdict(ExecLine(fuel, old(Current()), line))
      ensures r.Returns? ==> Current() == ExecLine(fuel, old(Current()), line).value.machine && Valid()
      decreases fuel, 2
    {
      match line.command {
        case Print(e) =>
          var o := InterpretPrint(e);
          r := Answer(o, true);
        case Assignment(name, e) =>
          var o := InterpretAssignment(name, e);
          r := Answer(o, true);
        case StoreCommand(n, c) =>
          lines := lines[n := Line(line.original, c)];
          r := Returns(true);
        case ListCommand =>
          ListProgramInMemory();
          r := Returns(true);
        case GoTo(n) =>
          pc := n;
          r := Returns(false);
        case Return =>
          r := Returns(true);
        case Pop =>
          r := Returns(false);
        case ExpREM =>
          r := Returns(true);
        case Run(_) | GoSub(_) | If(_, _) | Multiple(_) =>
          r := InterpretNested(fuel, line);
      }
    }

    /** The branches of `interpretLine` that execute further commands: RUN,
        GOSUB, IF and `Multiple`. */
    method InterpretNested(fuel: nat, line: Line) returns (r: Outcome<bool>)
      requires Valid() && Handled(line.command)
      requires line.command.Run? || line.command.GoSub? || line.command.If? || line.command.Multiple?
      modifies this
      ensures r == Verdict(ExecLine(fuel, old(Current()), line))
      ensures r.Returns? ==> Current() == ExecLine(fuel, old(Current()), line).value.machine && Valid()
      decreases fuel, 1
    {
      match line.command {
        case Run(start) =>
          if fuel == 0 {
            r := OutOfFuel;
          } else {
            var o := RunProgram(fuel - 1, start);
            r := Answer(o, true);
          }
        case GoSub(n) =>
          r := InterpretGoSub(fuel, n);
        case If(cond, consequent) =>
          r := InterpretIf(fuel, cond, consequent);
        case Multiple(cmds) =>
          if fuel == 0 {
            r := OutOfFuel;
          } else {
            var o := InterpretMultiple(fuel - 1, cmds);
            r := Answer(o, true);
          }
      }
    }

    /** `line.command.commands.forEach { interpretCommand(it) }`. */
    method InterpretMultiple(fuel: nat, cmds: seq<CommandResult>) returns (r: Outcome<()>)
      requires Valid() && forall i :: 0 <= i < |cmds| ==> ResultHandled(cmds[i])
      modifies this
      ensures r == Status(ExecAll(fuel, old(Current()), cmds))
      ensures r.Returns? ==> Current() == ExecAll(fuel, old(Current()), cmds).value && Valid()
      decreases fuel, 4
    {
      var i := 0;
      while i < |cmds|
        invariant 0 <= i <= |cmds| && Valid()
        invariant ExecAll(fuel, Current(), cmds[i..]) == ExecAll(fuel, old(Current()), cmds)
      {
        assert cmds[i..][1..] == cmds[i + 1..];
        var o := InterpretCommand(fuel, cmds[i]);
        if o.Throws? {
          r := Throws(o.exception);
          return;
        }
        if o.OutOfFuel? {
          r := OutOfFuel;
          return;
        }
        i := i + 1;
      }
      r := Returns(());
    }

    method ListProgramInMemory()
      modifies this
      ensures Current() == ListEffect(old(Current()))
    {
      var linesSorted := SortKeys(lines.Keys);
      PrintOriginals(linesSorted);
    }

    /** The `for (line in linesSorted)` loop of `listProgramInMemory`. */
    method PrintOriginals(keys: seq<int>)
      modifies this
      ensures Current() == old(Current()).(output := old(output) + ListOutput(lines, keys))
    {
      var i := 0;
      while i < |keys|
        invariant 0 <= i <= |keys|
        invariant variables == old(variables) && lines == old(lines) && pc == old(pc)
        invariant output == old(output) + ListOutput(lines, keys[..i])
      {
        var line := keys[i];
        assert keys[..i + 1] == keys[..i] + [line];
        ListOutputSnoc(lines, keys[..i], line);
        if line in lines {
          Println(lines[line].original);
        }
        i := i + 1;
      }
      assert keys[..i] == keys;
    }

    method RunProgram(fuel: nat, start: int) returns (r: Outcome<()>)
      requires Valid()
      modifies this
      ensures r == Status(StartRun(fuel, old(Current()), start))
      ensures r.Returns? ==> Current() == StartRun(fuel, old(Current()), start).value && Valid()
      decreases fuel, 5
    {
      var linesSorted := SortKeys(set k | k in lines && k >= start);
      if linesSorted == [] {
        r := Throws(EmptyList);
        return;
      }
      pc := linesSorted[0];
      r := RunLines(fuel, linesSorted);
    }

    /** The `while (true)` loop of `runProgram`. */
    method RunLines(fuel: nat, linesSorted: seq<int>) returns (r: Outcome<()>)
      requires Valid()
      modifies this
      ensures r == Status(RunLoop(fuel, linesSorted, old(Current())))
      ensures r.Returns? ==> Current() == RunLoop(fuel, linesSorted, old(Current())).value && Valid()
      decreases fuel, 4
    {
      var f: nat := fuel;
      while true
        invariant f <= fuel && Valid()
        invariant RunLoop(f, linesSorted, Current()) == RunLoop(fuel, linesSorted, old(Current()))
        decreases f
      {
        if f == 0 {
          r := OutOfFuel;
          return;
        }
        if pc !in lines {
          r := Returns(());
          return;
        }
        var ordinary := InterpretLine(f - 1, lines[pc]);
        if ordinary.Throws? {
          r := Throws(ordinary.exception);
          return;
        }
        if ordinary.OutOfFuel? {
          r := OutOfFuel;
          return;
        }
        if ordinary.value {
          var next := IndexOf(linesSorted, pc) + 1;
          if next < |linesSorted| {
            pc := linesSorted[next];
          } else {
            r := Returns(());
            return;
          }
        }
        f := f - 1;
      }
    }

    method InterpretGoSub(fuel: nat, n: int) returns (r: Outcome<bool>)
      requires Valid()
      modifies this
      ensures r == Verdict(GoSubStep(fuel, old(Current()), n))
      ensures r.Returns? ==> Current() == GoSubStep(fuel, old(Current()), n).value.machine && Valid()
      decreases fuel, 0
    {
      if n !in lines {
        r := Returns(true);
      } else if fuel == 0 {
        r := OutOfFuel;
      } else {
        var o := InterpretLine(fuel - 1, lines[n]);
        r := if o.Returns? then Returns(true) else o;
      }
    }

    method InterpretIf(fuel: nat, cond: Expression, consequent: CommandResult) returns (r: Outcome<bool>)
      requires Valid() && ResultHandled(consequent)
      modifies this
      ensures r == Verdict(IfStep(fuel, old(Current()), cond, consequent))
      ensures r.Returns? ==> Current() == IfStep(fuel, old(Current()), cond, consequent).value.machine && Valid()
      decreases fuel, 0
    {
      var result := Evaluate(variables, cond);
      if result.Throws? {
        r := Throws(result.exception);
        return;
      }
      variables := result.value.variables;
      if IsPositive(result.value.result) {
        if fuel == 0 {
          r := OutOfFuel;
        } else {
          r := InterpretCommand(fuel - 1, consequent);
        }
      } else {
        r := Returns(true);
      }
    }

    method InterpretAssignment(name: string, e: Expression) returns (r: Outcome<()>)
      modifies this
      ensures r == Status(AssignEffect(old(Current()), name, e))
      ensures r.Returns? ==> Current() == AssignEffect(old(Current()), name, e).value
    {
      var res := Evaluate(variables, e);
      if res.Throws? {
        r := Throws(res.exception);
        return;
      }
      variables := res.value.variables;
      match res.value.result {
        case Ok(v) => variables := variables[name := v];
        case Err(msg) => Println(msg);
      }
      r := Returns(());
    }

    method InterpretPrint(e: Expression) returns (r: Outcome<()>)
      modifies this
      ensures r == Status(PrintEffect(old(Current()), e))
      ensures r.Returns? ==> Current() == PrintEffect(old(Current()), e).value
    {
      match e {
        case ExpStr(s) => Println(s);
        case ExpInt(n) => Println(IntToString(n));
        case ExpBin(left, op, right) =>
          var res := EvaluateBinary(variables, left, op, right);
          if res.Throws? {
            r := Throws(res.exception);
            return;
          }
          variables := res.value.variables;
          Println(ResultText(res.value.result));
        case ExpIdentifier(name) =>
          var res := Lookup(variables, name);
          variables := res.variables;
          Println(Shown(res.result.value));
        case ExpUnr(_, _) =>
          Println("*** Cannot interpret command: Print");
      }
      r := Returns(());
    }
  }

  // ---------------------------------------------------------------------
  // Expressions: properties
  // ---------------------------------------------------------------------

  /** Every unary expression ends the session, wherever it sits: both
      operands of a binary expression are always evaluated. */
  lemma {:induction false} UnaryAlwaysThrows(vars: map<string, ExprResult>, e: Expression)
    requires HasUnary(e)
    ensures Evaluate(vars, e).Throws?
    decreases e
  {
    match e
    case ExpBin(l, op, r) =>
      if HasUnary(l) {
        UnaryAlwaysThrows(vars, l);
      } else {
        var left := Evaluate(vars, l);
        if left.Returns? {
          UnaryAlwaysThrows(left.value.variables, r);
        }
      }
    case ExpUnr(_, _) =>
  }

  /** Without unary operators and without `/` or `MOD`, evaluation never
      throws: type errors come back as `Err` values. */
  lemma {:induction false} PlainExpressionsReturn(vars: map<string, ExprResult>, e: Expression)
    requires !HasUnary(e) && !HasDivision(e)
    ensures Evaluate(vars, e).Returns?
    decreases e
  {
    match e
    case ExpBin(l, op, r) =>
      PlainExpressionsReturn(vars, l);
      PlainExpressionsReturn(Evaluate(vars, l).value.variables, r);
      BinaryReturns(vars, l, op, r);
      assert Evaluate(vars, e) == EvaluateBinary(vars, l, op, r);
    case _ =>
  }

  /** A binary step other than `/` and `MOD` returns once both operands do. */
  lemma BinaryReturns(vars: map<string, ExprResult>, l: Expression, op: BinaryOp, r: Expression)
    requires op != Div && op != Mod
    requires Evaluate(vars, l).Returns? && Evaluate(Evaluate(vars, l).value.variables, r).Returns?
    ensures EvaluateBinary(vars, l, op, r).Returns?
  {
    var left := Evaluate(vars, l);
    var right := Evaluate(left.value.variables, r);
    if left.value.result.Ok? && right.value.result.Ok? {
      ApplyReturns(op, left.value.result.value, right.value.result.value);
    }
  }

  /** Only `/` and `MOD` can throw. */
  lemma ApplyReturns(op: BinaryOp, a: ExprResult, b: ExprResult)
    requires op != Div && op != Mod
    ensures ApplyBinary(op, a, b).Returns?
  {
  }

  /** The operand kinds each operator accepts: integers everywhere, strings
      only for `+`, `=` and `<>`. */
  predicate WellTyped(op: BinaryOp, a: ExprResult, b: ExprResult)
  {
    (a.ResInt? && b.ResInt?) || (a.ResStr? && b.ResStr? && (op == Plus || op == Equal || op == Diff))
  }

  /** A binary operator returns an error value exactly on ill-typed
      operands, and throws exactly on an integer division by zero. */
  lemma ApplyBinaryOutcomes(op: BinaryOp, a: ExprResult, b: ExprResult)
    ensures ApplyBinary(op, a, b).Returns? && ApplyBinary(op, a, b).value.Err? <==> !WellTyped(op, a, b)
    ensures ApplyBinary(op, a, b).Throws? <==> (op == Div || op == Mod) && a.ResInt? && b.ResInt? && b.number == 0
  {
  }

  /** The comparisons written as a difference against 0 agree with the
      plain comparisons, and all logical results are 0 or 1.  This holds
      because the model's integers are unbounded: with Kotlin's 32-bit
      wrap-around the difference can overflow (`-2147483648 < 1` computes
      `-2147483649`, which wraps to a positive number, and gives 0). */
  lemma IntegerComparisons(a: int, b: int)
    ensures ApplyBinary(Less, ResInt(a), ResInt(b)) == Returns(Ok(Flag(a < b)))
    ensures ApplyBinary(LessEq, ResInt(a), ResInt(b)) == Returns(Ok(Flag(a <= b)))
    ensures ApplyBinary(Great, ResInt(a), ResInt(b)) == Returns(Ok(Flag(a > b)))
    ensures ApplyBinary(GreatEq, ResInt(a), ResInt(b)) == Returns(Ok(Flag(a >= b)))
    ensures ApplyBinary(Equal, ResInt(a), ResInt(b)) == Returns(Ok(Flag(a == b)))
    ensures ApplyBinary(Diff, ResInt(a), ResInt(b)) == Returns(Ok(Flag(a != b)))
  {
  }

  /** `/` and `MOD` satisfy Kotlin's division law, and the remainder is
      smaller than the divisor. */
  lemma DivisionLaw(a: int, b: int)
    requires b != 0
    ensures ApplyBinary(Div, ResInt(a), ResInt(b)).Returns? && ApplyBinary(Mod, ResInt(a), ResInt(b)).Returns?
    ensures var q := ApplyBinary(Div, ResInt(a), ResInt(b)).value.value.number;
            var r := ApplyBinary(Mod, ResInt(a), ResInt(b)).value.value.number;
            q * b + r == a && Abs(r) < Abs(b)
  {
    TruncDivMod(a, b);
  }

  // ---------------------------------------------------------------------
  // Commands: properties
  // ---------------------------------------------------------------------

  /** A line that did not parse prints its error, counts as ordinary and
      changes nothing else. */
  lemma ParseErrorIsPrinted(fuel: nat, m: Machine, original: string, e: string)
    requires AllHandled(m.lines)
    ensures ExecCommand(fuel, m, CommandResult(original, Err(e)))
         == Returns(Step(true, m.(output := m.output + [e])))
  {
  }

  /** Storing a line overwrites whatever was stored under that number and
      leaves every other line, the variables, `pc` and the output alone. */
  lemma StoreOverwrites(fuel: nat, m: Machine, original: string, n: int, c: Command)
    requires AllHandled(m.lines) && Handled(c)
    ensures var o := ExecLine(fuel, m, Line(original, StoreCommand(n, c)));
            && o.Returns? && o.value.ordinary
            && n in o.value.machine.lines && o.value.machine.lines[n] == Line(original, c)
            && (forall k :: k != n ==> (k in o.value.machine.lines <==> k in m.lines))
            && (forall k :: k != n && k in m.lines ==> o.value.machine.lines[k] == m.lines[k])
            && o.value.machine.variables == m.variables && o.value.machine.pc == m.pc
            && o.value.machine.output == m.output
  {
  }

  /** GOTO only moves `pc` and is not ordinary; POP is not ordinary either;
      RETURN and REM are ordinary no-ops. */
  lemma ControlAnswers(fuel: nat, m: Machine, original: string, n: int)
    requires AllHandled(m.lines)
    ensures ExecLine(fuel, m, Line(original, GoTo(n))) == Returns(Step(false, m.(pc := n)))
    ensures ExecLine(fuel, m, Line(original, Pop)) == Returns(Step(false, m))
    ensures ExecLine(fuel, m, Line(original, Return)) == Returns(Step(true, m))
    ensures ExecLine(fuel, m, Line(original, ExpREM)) == Returns(Step(true, m))
  {
  }

  /** GOSUB to a line holding a GOTO moves `pc` but still answers ordinary,
      so a running program continues after the GOTO's target, not at it. */
  lemma GoSubOfGoTo(fuel: nat, m: Machine, n: int, target: int)
    requires AllHandled(m.lines) && fuel > 0
    requires n in m.lines && m.lines[n].command == GoTo(target)
    ensures GoSubStep(fuel, m, n) == Returns(Step(true, m.(pc := target)))
  {
  }

  /** A string condition, or an integer that is not above 0, skips the
      consequent; a positive integer runs it, and its answer is the IF's. */
  lemma IfLiteralConditions(fuel: nat, m: Machine, consequent: CommandResult, s: string, n: int)
    requires ResultHandled(consequent) && AllHandled(m.lines)
    ensures IfStep(fuel, m, ExpStr(s), consequent) == Returns(Step(true, m))
    ensures n <= 0 ==> IfStep(fuel, m, ExpInt(n), consequent) == Returns(Step(true, m))
    ensures n > 0 && fuel > 0 ==> IfStep(fuel, m, ExpInt(n), consequent) == ExecCommand(fuel - 1, m, consequent)
  {
  }

  /** An assignment binds its name only when the expression evaluates; an
      error is printed and leaves an existing binding of the name alone. */
  lemma AssignmentBindsOnlyOnSuccess(m: Machine, name: string, e: Expression)
    requires Evaluate(m.variables, e).Returns?
    ensures var ev := Evaluate(m.variables, e).value;
            var o := AssignEffect(m, name, e);
            && o.Returns?
            && (ev.result.Ok? ==> name in o.value.variables && o.value.variables[name] == ev.result.value
                                  && o.value.output == m.output)
            && (ev.result.Err? ==> o.value.output == m.output + [ev.result.error]
                                   && (name in m.variables ==> o.value.variables[name] == m.variables[name]))
  {
  }

  /** Reading a variable that was never set gives 0 and binds it to 0. */
  lemma UnsetVariableReadsZero(m: Machine, name: string)
    requires name !in m.variables
    ensures PrintEffect(m, ExpIdentifier(name))
         == Returns(m.(variables := m.variables[name := ResInt(0)], output := m.output + ["0"]))
  {
  }

  // ---------------------------------------------------------------------
  // Multiple
  // ---------------------------------------------------------------------

  /** A part that prints one fixed text: a parse error or `PRINT "..."`. */
  predicate Echoes(cr: CommandResult)
  {
    cr.command.Err? || (cr.command.value.Print? && cr.command.value.expression.ExpStr?)
  }

  function EchoText(cr: CommandResult): string
    requires Echoes(cr)
  {
    if cr.command.Err? then cr.command.error else cr.command.value.expression.text
  }

  function EchoTexts(cmds: seq<CommandResult>): seq<string>
    requires forall i :: 0 <= i < |cmds| ==> Echoes(cmds[i])
  {
    if cmds == [] then [] else [EchoText(cmds[0])] + EchoTexts(cmds[1..])
  }

  /** The `forEach` of a `Multiple` ignores how a part ended: whatever step
      the first part returns, ordinary or not, the remaining parts run from
      the machine it left; only an exception (or the fuel bound) stops the
      loop, and it passes out unchanged. */
  lemma MultipleIgnoresPartResult(fuel: nat, m: Machine, cmds: seq<CommandResult>)
    requires cmds != [] && (forall i :: 0 <= i < |cmds| ==> ResultHandled(cmds[i])) && AllHandled(m.lines)
    ensures var o := ExecCommand(fuel, m, cmds[0]);
            && (o.Returns? ==> ExecAll(fuel, m, cmds) == ExecAll(fuel, o.value.machine, cmds[1..]))
            && (o.Throws? ==> ExecAll(fuel, m, cmds) == Throws(o.exception))
            && (o.OutOfFuel? ==> ExecAll(fuel, m, cmds) == OutOfFuel)
  {
  }

  /** Running the parts `a + b` is running `a`, then `b` from the machine
      `a` left, unless `a` did not return. */
  lemma {:induction false} ExecAllAppend(fuel: nat, m: Machine, a: seq<CommandResult>, b: seq<CommandResult>)
    requires forall i :: 0 <= i < |a| ==> ResultHandled(a[i])
    requires forall i :: 0 <= i < |b| ==> ResultHandled(b[i])
    requires AllHandled(m.lines)
    ensures forall i :: 0 <= i < |a + b| ==> ResultHandled((a + b)[i])
    ensures var o := ExecAll(fuel, m, a);
            ExecAll(fuel, m, a + b) == if o.Returns? then ExecAll(fuel, o.value, b) else o
    decreases |a|
  {
    assert forall i :: 0 <= i < |a + b| ==> (a + b)[i] == (if i < |a| then a[i] else b[i - |a|]);
    if a == [] {
      assert a + b == b;
    } else {
      assert (a + b)[0] == a[0];
      assert (a + b)[1..] == a[1..] + b;
      var o := ExecCommand(fuel, m, a[0]);
      if o.Returns? {
        ExecAllAppend(fuel, o.value.machine, a[1..], b);
      }
    }
  }

  /** A part that echoes prints its text and returns an ordinary step. */
  lemma EchoStep(fuel: nat, m: Machine, cr: CommandResult)
    requires Echoes(cr) && AllHandled(m.lines)
    ensures ResultHandled(cr)
    ensures ExecCommand(fuel, m, cr) == Returns(Step(true, m.(output := m.output + [EchoText(cr)])))
  {
  }

  /** The parts of a `Multiple` all run, in order, for parts that each print
      one fixed text: a failed part (a parse error) does not stop the ones
      after it. */
  lemma {:induction false} MultipleRunsEveryPart(fuel: nat, m: Machine, cmds: seq<CommandResult>)
    requires AllHandled(m.lines)
    requires forall i :: 0 <= i < |cmds| ==> Echoes(cmds[i])
    ensures (forall i :: 0 <= i < |cmds| ==> ResultHandled(cmds[i]))
    ensures ExecAll(fuel, m, cmds) == Returns(m.(output := m.output + EchoTexts(cmds)))
    decreases |cmds|
  {
    EchoesHandled(cmds);
    if cmds != [] {
      var m1 := m.(output := m.output + [EchoText(cmds[0])]);
      var rest := cmds[1..];
      EchoStep(fuel, m, cmds[0]);
      assert forall i :: 0 <= i < |rest| ==> rest[i] == cmds[i + 1];
      MultipleRunsEveryPart(fuel, m1, rest);
      MultipleIgnoresPartResult(fuel, m, cmds);
      AppendAssociates(m.output, [EchoText(cmds[0])], EchoTexts(rest));
    } else {
      assert m.output + [] == m.output;
    }
  }

  /** Parts that echo are parts the interpreter handles. */
  lemma EchoesHandled(cmds: seq<CommandResult>)
    requires forall i :: 0 <= i < |cmds| ==> Echoes(cmds[i])
    ensures forall i :: 0 <= i < |cmds| ==> ResultHandled(cmds[i])
  {
  }

  /** A `Multiple` is ordinary whatever its parts answered (a GOTO inside
      one does not make the line a jump). */
  lemma MultipleIsOrdinary(fuel: nat, m: Machine, original: string, cmds: seq<CommandResult>)
    requires AllHandled(m.lines) && Handled(Multiple(cmds))
    ensures ExecLine(fuel, m, Line(original, Multiple(cmds))).Returns? ==>
            ExecLine(fuel, m, Line(original, Multiple(cmds))).value.ordinary
  {
  }

  // ---------------------------------------------------------------------
  // LIST
  // ---------------------------------------------------------------------

  lemma {:induction false} ListOutputAll(lines: map<int, Line>, keys: seq<int>)
    requires forall i :: 0 <= i < |keys| ==> keys[i] in lines
    ensures |ListOutput(lines, keys)| == |keys|
    ensures forall i :: 0 <= i < |keys| ==> ListOutput(lines, keys)[i] == lines[keys[i]].original
    decreases |keys|
  {
    if keys != [] {
      ListOutputAll(lines, keys[..|keys| - 1]);
    }
  }

  /** LIST prints the original text of every stored line, one per line, in
      ascending line-number order, and changes nothing else; listing twice
      prints the same block twice. */
  lemma ListShowsEveryLineInOrder(m: Machine)
    ensures var keys := SortedKeys(m.lines.Keys);
            var shown := ListEffect(m).output[|m.output|..];
            && ListEffect(m) == m.(output := m.output + shown)
            && |shown| == |m.lines| == |keys|
            && StrictlyIncreasing(keys) && (forall k :: k in keys <==> k in m.lines)
            && (forall i :: 0 <= i < |keys| ==> shown[i] == m.lines[keys[i]].original)
            && ListEffect(ListEffect(m)).output == m.output + shown + shown
  {
    var keys := SortedKeys(m.lines.Keys);
    ListOutputAll(m.lines, keys);
    var shown := ListOutput(m.lines, keys);
    assert ListEffect(m).output[|m.output|..] == shown;
  }

  // ---------------------------------------------------------------------
  // RUN
  // ---------------------------------------------------------------------

  /** RUN with no stored line at or above its start reaches `.first()` of
      an empty list. */
  lemma RunWithoutLinesThrows(fuel: nat, m: Machine, original: string, start: int)
    requires AllHandled(m.lines) && fuel > 0
    requires forall k :: k in m.lines ==> k < start
    ensures ExecLine(fuel, m, Line(original, Run(start))) == Throws(EmptyList)
  {
    assert (set k | k in m.lines && k >= start) == {};
  }

  /** A GOTO to a line that is not stored ends the run there. */
  lemma GoToMissingLineStops(fuel: nat, keys: seq<int>, m: Machine, target: int)
    requires AllHandled(m.lines) && fuel >= 2
    requires m.pc in m.lines && m.lines[m.pc].command == GoTo(target) && target !in m.lines
    ensures RunLoop(fuel, keys, m) == Returns(m.(pc := target))
  {
    var m1 := m.(pc := target);
    assert ExecLine(fuel - 1, m, m.lines[m.pc]) == Returns(Step(false, m1));
    assert RunLoop(fuel - 1, keys, m1) == Returns(m1);
  }

  /** After an ordinary line that left `pc` outside the selected keys, the
      run continues at the first selected key. */
  lemma RunResumesAtFirstKey(fuel: nat, keys: seq<int>, m: Machine, m1: Machine)
    requires AllHandled(m.lines) && fuel > 0 && keys != []
    requires m.pc in m.lines && ExecLine(fuel - 1, m, m.lines[m.pc]) == Returns(Step(true, m1))
    requires m1.pc !in keys
    ensures RunLoop(fuel, keys, m) == RunLoop(fuel - 1, keys, m1.(pc := keys[0]))
  {
  }

  /** A line that prints a string literal. */
  predicate PrintsText(line: Line)
  {
    line.command.Print? && line.command.expression.ExpStr?
  }

  /** Every stored line is a PRINT of a string literal. */
  predicate PrintsOnly(lines: map<int, Line>)
  {
    forall k :: k in lines ==> PrintsText(lines[k])
  }

  /** The texts printed by the lines at `keys`, in that order. */
  function Printed(lines: map<int, Line>, keys: seq<int>): seq<string>
    requires PrintsOnly(lines) && forall i :: 0 <= i < |keys| ==> keys[i] in lines
  {
    if keys == [] then []
    else
      var k := keys[0];
      assert k in lines && PrintsText(lines[k]);
      [lines[k].command.expression.text] + Printed(lines, keys[1..])
  }

  lemma IndexOfIncreasing(keys: seq<int>, i: nat)
    requires StrictlyIncreasing(keys) && i < |keys|
    ensures IndexOf(keys, keys[i]) == i
  {
    assert keys[i] in keys;
  }

  /** One turn of the RUN loop over an ordinary line. */
  lemma RunLoopOrdinary(fuel: nat, keys: seq<int>, m: Machine, m1: Machine)
    requires AllHandled(m.lines) && fuel > 0 && m.pc in m.lines
    requires ExecLine(fuel - 1, m, m.lines[m.pc]) == Returns(Step(true, m1))
    ensures AllHandled(m1.lines)
    ensures var next := IndexOf(keys, m1.pc) + 1;
            RunLoop(fuel, keys, m) == if next < |keys| then RunLoop(fuel - 1, keys, m1.(pc := keys[next])) else Returns(m1)
  {
  }

  lemma PrintTextStep(fuel: nat, m: Machine, line: Line)
    requires AllHandled(m.lines) && PrintsText(line)
    ensures ExecLine(fuel, m, line) == Returns(Step(true, m.(output := m.output + [line.command.expression.text])))
  {
  }

  lemma PrintsOnlyHandled(lines: map<int, Line>)
    requires PrintsOnly(lines)
    ensures AllHandled(lines)
  {
    forall k | k in lines ensures Handled(lines[k].command) {
      assert PrintsText(lines[k]);
    }
  }

  /** The text the line at `keys[i]` prints. */
  function TextAt(lines: map<int, Line>, keys: seq<int>, i: nat): string
    requires PrintsOnly(lines) && i < |keys| && keys[i] in lines
  {
    var k := keys[i];
    assert PrintsText(lines[k]);
    lines[k].command.expression.text
  }

  lemma PrintedUnfold(lines: map<int, Line>, keys: seq<int>, i: nat)
    requires PrintsOnly(lines) && forall j :: 0 <= j < |keys| ==> keys[j] in lines
    requires i < |keys|
    ensures Printed(lines, keys[i..]) == [TextAt(lines, keys, i)] + Printed(lines, keys[i + 1..])
  {
    assert keys[i..][1..] == keys[i + 1..];
  }

  /** One turn of the RUN loop on the PRINT line at `keys[i]`. */
  lemma RunLoopPrintStep(fuel: nat, keys: seq<int>, m: Machine, i: nat)
    requires PrintsOnly(m.lines) && StrictlyIncreasing(keys)
    requires forall j :: 0 <= j < |keys| ==> keys[j] in m.lines
    requires i < |keys| && m.pc == keys[i] && fuel > 0
    ensures AllHandled(m.lines)
    ensures var m1 := m.(output := m.output + [TextAt(m.lines, keys, i)]);
            RunLoop(fuel, keys, m)
            == if i + 1 < |keys| then RunLoop(fuel - 1, keys, m1.(pc := keys[i + 1])) else Returns(m1)
  {
    PrintsOnlyHandled(m.lines);
    assert PrintsText(m.lines[m.pc]);
    var m1 := m.(output := m.output + [TextAt(m.lines, keys, i)]);
    PrintTextStep(fuel - 1, m, m.lines[m.pc]);
    RunLoopOrdinary(fuel, keys, m, m1);
    IndexOfIncreasing(keys, i);
  }

  lemma {:induction false} RunLoopPrints(fuel: nat, keys: seq<int>, m: Machine, i: nat)
    requires PrintsOnly(m.lines) && StrictlyIncreasing(keys)
    requires forall j :: 0 <= j < |keys| ==> keys[j] in m.lines
    requires i < |keys| && m.pc == keys[i] && fuel >= |keys| - i
    ensures AllHandled(m.lines)
    ensures RunLoop(fuel, keys, m)
         == Returns(m.(output := m.output + Printed(m.lines, keys[i..]), pc := keys[|keys| - 1]))
    decreases |keys| - i
  {
    PrintsOnlyHandled(m.lines);
    if i + 1 < |keys| {
      var m2 := m.(output := m.output + [TextAt(m.lines, keys, i)], pc := keys[i + 1]);
      RunLoopPrints(fuel - 1, keys, m2, i + 1);
      RunLoopPrintsMiddle(fuel, keys, m, i, m2);
    } else {
      RunLoopPrintsLast(fuel, keys, m, i);
    }
  }

  /** The run loop on a PRINT line that has a next line, given how the
      loop goes on from the next line. */
  lemma RunLoopPrintsMiddle(fuel: nat, keys: seq<int>, m: Machine, i: nat, m2: Machine)
    requires PrintsOnly(m.lines) && StrictlyIncreasing(keys)
    requires forall j :: 0 <= j < |keys| ==> keys[j] in m.lines
    requires i + 1 < |keys| && m.pc == keys[i] && fuel > 0
    requires m2 == m.(output := m.output + [TextAt(m.lines, keys, i)], pc := keys[i + 1])
    requires RunLoop(fuel - 1, keys, m2)
          == Returns(m2.(output := m2.output + Printed(m2.lines, keys[i + 1..]), pc := keys[|keys| - 1]))
    ensures RunLoop(fuel, keys, m)
         == Returns(m.(output := m.output + Printed(m.lines, keys[i..]), pc := keys[|keys| - 1]))
  {
    RunLoopPrintStep(fuel, keys, m, i);
    PrintedUnfold(m.lines, keys, i);
    AppendAssociates(m.output, [TextAt(m.lines, keys, i)], Printed(m.lines, keys[i + 1..]));
    var printed := m.output + Printed(m.lines, keys[i..]);
    assert m2.output + Printed(m2.lines, keys[i + 1..]) == printed;
    assert m2.(output := printed, pc := keys[|keys| - 1]) == m.(output := printed, pc := keys[|keys| - 1]);
  }

  /** The run loop on the last selected PRINT line. */
  lemma RunLoopPrintsLast(fuel: nat, keys: seq<int>, m: Machine, i: nat)
    requires PrintsOnly(m.lines) && StrictlyIncreasing(keys)
    requires forall j :: 0 <= j < |keys| ==> keys[j] in m.lines
    requires i + 1 == |keys| && m.pc == keys[i] && fuel > 0
    ensures RunLoop(fuel, keys, m)
         == Returns(m.(output := m.output + Printed(m.lines, keys[i..]), pc := keys[|keys| - 1]))
  {
    RunLoopPrintStep(fuel, keys, m, i);
    PrintedUnfold(m.lines, keys, i);
    var m1 := m.(output := m.output + [TextAt(m.lines, keys, i)]);
    assert keys[i + 1..] == [];
    assert Printed(m.lines, keys[i..]) == [TextAt(m.lines, keys, i)];
    assert m1 == m.(output := m.output + Printed(m.lines, keys[i..]), pc := keys[|keys| - 1]);
  }

  /** RUN enters the run loop at the first selected line. */
  lemma RunCommandStarts(fuel: nat, m: Machine, original: string, start: int, keys: seq<int>, m0: Machine)
    requires AllHandled(m.lines) && keys == Selection(m.lines, start) && keys != [] && fuel > 0
    requires m0 == m.(pc := keys[0])
    ensures ExecLine(fuel, m, Line(original, Run(start))) == Continue(RunLoop(fuel - 1, keys, m0), true)
  {
    assert StartRun(fuel - 1, m, start) == RunLoop(fuel - 1, keys, m0);
  }

  /** RUN over a program of PRINT lines, once in its loop at the first
      selected line, prints them all in ascending line-number order, and
      leaves `pc` on the last of them. */
  lemma RunPrintsInLineOrder(fuel: nat, keys: seq<int>, m: Machine, m0: Machine, last: Machine)
    requires PrintsOnly(m.lines) && StrictlyIncreasing(keys) && keys != []
    requires forall j :: 0 <= j < |keys| ==> keys[j] in m.lines
    requires fuel >= |keys| && m0 == m.(pc := keys[0])
    requires last == m.(output := m.output + Printed(m.lines, keys), pc := keys[|keys| - 1])
    ensures AllHandled(m0.lines) && RunLoop(fuel, keys, m0) == Returns(last)
  {
    RunLoopPrints(fuel, keys, m0, 0);
    assert keys[0..] == keys;
    var printed := m.output + Printed(m.lines, keys);
    assert m0.(output := printed, pc := keys[|keys| - 1]) == m.(output := printed, pc := keys[|keys| - 1]);
  }
}
