/** The evaluator of `core/src/com/bocker/applesoft/interpreter.kt`: an
    `Interpreter` object holding the variables, the stored program lines,
    the program counter and the `runNext` flag, executing one parsed
    command at a time.  Unlike the `src/main` generation, every command
    answers with a `Result`: failures are values, printed by
    `interpretCommand` on their way out, and RUN stops at the first failing
    line.  A failure that passes through two `interpretCommand` calls is
    printed by both: the failing consequent of a true `IF` is printed twice,
    and a failing part of a stored `Multiple` is printed bare, then again
    inside RUN's `*** Error on line` message.  Unary
    operators are evaluated, and `ONERR` runs the command it guards.

    The value type, the stored line and the table of binary operators are
    the same in both generations and are taken from `MainInterpreter`; the
    parser of this generation is not part of this model, and its `Command`
    and `Expression` are those of `MainParser`.

    As in `MainInterpreter`, ghost functions over a `Machine` value state
    what each command does, and the `Interpreter` class, which updates its
    fields in place, is proved to agree with them.  `onPrint` appends to
    the `output` field. */
module CoreInterpreter {
  import opened Common
  import opened MainOperators
  import opened MainParser
  import MI = MainInterpreter

  /** The interpreter's fields and everything it has printed. */
  datatype Machine = Machine(
    variables: map<string, MI.ExprResult>,
    lines: map<int, MI.Line>,
    pc: int,
    runNext: bool,
    output: seq<string>)

  /** How a command ended and the machine after it. */
  datatype Step = Step(result: Result<()>, machine: Machine)

  const NoSuchLine := "No such line in memory"
  const ReturnNotImplemented := "Command 'RETURN' not implemented"
  const PopNotImplemented := "Command 'POP' not implemented"
  const IfNeedsInteger := "Cannot handle if statement that results other than integer"

  /** The message RUN gives when `pc` names no stored line. */
  function NoSuchLineAt(pc: int): string
  {
    NoSuchLine + ": " + IntToString(pc)
  }

  /** The message RUN gives when a line fails. */
  function ErrorOnLine(pc: int, error: string): string
  {
    "*** Error on line " + IntToString(pc) + " *** \n\t" + error
  }

  // ---------------------------------------------------------------------
  // Expressions (interpretExpression, interpretUnaryExpression,
  // interpretBinaryExpression, interpretIdentifier)
  // ---------------------------------------------------------------------

  /** One unary operator applied to a value: strings cannot be negated or
      NOT-ed; `NOT` maps positive numbers to 0 and the rest to 1. */
  function ApplyUnary(op: UnaryOp, v: MI.ExprResult): (r: Result<MI.ExprResult>)
    ensures r.Err? <==> v.ResStr?
    ensures r.Ok? ==> r.value.ResInt?
  {
    match op
    case UMinus =>
      (match v
       case ResStr(s) => Err("*** Can not negate string '" + s + "'")
       case ResInt(n) => Ok(MI.ResInt(-n)))
    case Not =>
      (match v
       case ResStr(s) => Err("*** Can not NOT string '" + s + "'")
       case ResInt(n) => Ok(MI.ResInt(if n > 0 then 0 else 1)))
  }

  /** `interpretExpression`.  Only a division or `MOD` by zero throws. */
  function Evaluate(vars: map<string, MI.ExprResult>, e: Expression): (o: Outcome<MI.Evaluated>)
    ensures !o.OutOfFuel?
    ensures o.Returns? ==> MI.Extends(vars, o.value.variables, MI.Identifiers(e))
    decreases e, 1
  {
    match e
    case ExpInt(n) => Returns(MI.Evaluated(Ok(MI.ResInt(n)), vars))
    case ExpStr(s) => Returns(MI.Evaluated(Ok(MI.ResStr(s)), vars))
    case ExpIdentifier(name) => Returns(MI.Lookup(vars, name))
    case ExpUnr(op, inner) => EvaluateUnary(vars, op, inner)
    case ExpBin(l, op, r) => EvaluateBinary(vars, l, op, r)
  }

  /** `interpretUnaryExpression`: the operand's error is passed on. */
  function EvaluateUnary(vars: map<string, MI.ExprResult>, op: UnaryOp, inner: Expression): (o: Outcome<MI.Evaluated>)
    ensures !o.OutOfFuel?
    ensures o.Returns? ==> MI.Extends(vars, o.value.variables, MI.Identifiers(inner))
    decreases ExpUnr(op, inner), 0
  {
    var operand := Evaluate(vars, inner);
    if operand.Throws? then Throws(operand.exception)
    else if operand.value.result.Err? then Returns(operand.value)
    else Returns(MI.Evaluated(ApplyUnary(op, operand.value.result.value), operand.value.variables))
  }

  /** `interpretBinaryExpression`: both operands are read (left first, each
      possibly binding defaults) before either's error is returned; the
      operator table is the one of `src/main/interpreter.kt`, which this
      generation repeats word for word. */
  function EvaluateBinary(vars: map<string, MI.ExprResult>, l: Expression, op: BinaryOp, r: Expression): (o: Outcome<MI.Evaluated>)
    ensures !o.OutOfFuel?
    ensures o.Returns? ==> MI.Extends(vars, o.value.variables, MI.Identifiers(l) + MI.Identifiers(r))
    decreases ExpBin(l, op, r), 0
  {
    var left := Evaluate(vars, l);
    if left.Throws? then Throws(left.exception)
    else
      var right := Evaluate(left.value.variables, r);
      if right.Throws? then Throws(right.exception)
      else if left.value.result.Err? then Returns(MI.Evaluated(left.value.result, right.value.variables))
      else if right.value.result.Err? then Returns(right.value)
      else
        var applied := MI.ApplyBinary(op, left.value.result.value, right.value.result.value);
        if applied.Throws? then Throws(applied.exception)
        else Returns(MI.Evaluated(applied.value, right.value.variables))
  }

  // ---------------------------------------------------------------------
  // Commands on a machine value
  // ---------------------------------------------------------------------

  function PrintLine(m: Machine, text: string): Machine
  {
    m.(output := m.output + [text])
  }

  function Succeeds(m: Machine): Outcome<Step> { Returns(Step(Ok(()), m)) }

  function Fails(m: Machine, error: string): Outcome<Step> { Returns(Step(Err(error), m)) }

  /** Prints an evaluated value, or passes its error on unprinted. */
  function PrintValue(m: Machine, ev: Outcome<MI.Evaluated>): (o: Outcome<Step>)
    requires !ev.OutOfFuel?
  {
    if ev.Throws? then Throws(ev.exception)
    else
      var m1 := m.(variables := ev.value.variables);
      match ev.value.result
      case Ok(v) => Succeeds(PrintLine(m1, MI.Shown(v)))
      case Err(e) => Fails(m1, e)
  }

  /** `interpretPrint`: prints one line on success and nothing on failure,
      and changes no program line. */
  function PrintEffect(m: Machine, e: Expression): (o: Outcome<Step>)
    ensures !o.OutOfFuel?
    ensures o.Returns? ==> var m1 := o.value.machine;
      m1.lines == m.lines && m1.pc == m.pc && m1.runNext == m.runNext
      && MI.Extends(m.variables, m1.variables, MI.Identifiers(e))
      && (o.value.result.Ok? ==> |m1.output| == |m.output| + 1 && m1.output[..|m.output|] == m.output)
      && (o.value.result.Err? ==> m1.output == m.output)
  {
    match e
    case ExpStr(s) => Succeeds(PrintLine(m, s))
    case ExpInt(n) => Succeeds(PrintLine(m, IntToString(n)))
    case ExpIdentifier(name) =>
      var ev := MI.Lookup(m.variables, name);
      Succeeds(PrintLine(m.(variables := ev.variables), MI.Shown(ev.result.value)))
    case ExpBin(_, _, _) => PrintValue(m, Evaluate(m.variables, e))
    case ExpUnr(_, _) => PrintValue(m, Evaluate(m.variables, e))
  }

  /** `interpretAssignment`: binds the name on success; prints nothing. */
  function AssignEffect(m: Machine, name: string, e: Expression): (o: Outcome<Step>)
    ensures !o.OutOfFuel?
    ensures o.Returns? ==> var m1 := o.value.machine;
      m1.lines == m.lines && m1.pc == m.pc && m1.runNext == m.runNext && m1.output == m.output
  {
    var ev := Evaluate(m.variables, e);
    if ev.Throws? then Throws(ev.exception)
    else match ev.value.result
      case Ok(v) => Succeeds(m.(variables := ev.value.variables[name := v]))
      case Err(msg) => Fails(m.(variables := ev.value.variables), msg)
  }

  /** `listProgramInMemory`. */
  ghost function ListEffect(m: Machine): Machine
  {
    m.(output := m.output + MI.ListOutput(m.lines, SortedKeys(m.lines.Keys)))
  }

  /** Where RUN goes after an ordinary line: the key after `pc` in the
      selection, or an index outside it when `pc` is the last key or is not
      selected at all (`indexOf` gives -1, which the source maps to -2). */
  function NextIndex(keys: seq<int>, pc: int): (i: int)
    ensures pc in keys ==> i == IndexOf(keys, pc) + 1
    ensures pc !in keys ==> i < 0
  {
    var index := IndexOf(keys, pc);
    if index == -1 then -2 else index + 1
  }

  /** Whether `Multiple` stops after a failed first part: only when a next
      part exists, parsed, and is not an `OnErr`. */
  predicate StopsAfterFailure(cmds: seq<CommandResult>)
  {
    |cmds| > 1 && cmds[1].command.Ok? && !cmds[1].command.value.OnErr?
  }

  /** `interpretCommand`: a parse error sets `runNext`; every failure is
      printed, except a failed `Multiple` (whose parts printed their own). */
  ghost function ExecCommand(fuel: nat, m: Machine, cr: CommandResult): (o: Outcome<Step>)
    decreases fuel, 4
  {
    match cr.command
    case Err(e) => Fails(PrintLine(m.(runNext := true), e), e)
    case Ok(c) =>
      var o := ExecLine(fuel, m, MI.Line(cr.original, c));
      if o.Returns? && o.value.result.Err? && !c.Multiple?
      then Fails(PrintLine(o.value.machine, o.value.result.error), o.value.result.error)
      else o
  }

  /** `interpretLine`.  Every nested execution (RUN, GOSUB, the consequent
      of IF, the parts of a `Multiple`) costs one unit of `fuel`. */
  ghost function ExecLine(fuel: nat, m: Machine, line: MI.Line): (o: Outcome<Step>)
    decreases fuel, 3, line.command
  {
    match line.command
    case Print(e) => PrintEffect(m.(runNext := true), e)
    case Assignment(name, e) => AssignEffect(m.(runNext := true), name, e)
    case StoreCommand(n, c) =>
      Succeeds(m.(runNext := true, lines := m.lines[n := MI.Line(line.original, c)]))
    case Run(start) => if fuel == 0 then OutOfFuel else StartRun(fuel - 1, m.(runNext := true), start)
    case ListCommand => Succeeds(ListEffect(m.(runNext := true)))
    case GoTo(n) => Succeeds(m.(runNext := false, pc := n))
    case GoSub(n) => GoSubStep(fuel, m.(runNext := true), n)
    case If(cond, consequent) => IfStep(fuel, m.(runNext := true), cond, consequent)
    case Return => Fails(m, ReturnNotImplemented)
    case Pop => Fails(m, PopNotImplemented)
    case ExpREM => Succeeds(m)
    case Multiple(cmds) => if fuel == 0 then OutOfFuel else ExecAll(fuel - 1, m, cmds)
    case OnErr(c) => ExecLine(fuel, m, MI.Line(line.original, c))
  }

  /** GOSUB runs the stored line in place (no return address is kept); a
      missing line fails. */
  ghost function GoSubStep(fuel: nat, m: Machine, n: int): (o: Outcome<Step>)
    decreases fuel, 2
  {
    if n !in m.lines then Fails(m, NoSuchLine)
    else if fuel == 0 then OutOfFuel
    else ExecLine(fuel - 1, m, m.lines[n])
  }

  /** `interpretIf`: the consequent runs only when the condition is an
      integer above 0; a string condition fails. */
  ghost function IfStep(fuel: nat, m: Machine, cond: Expression, consequent: CommandResult): (o: Outcome<Step>)
    decreases fuel, 2
  {
    var ev := Evaluate(m.variables, cond);
    if ev.Throws? then Throws(ev.exception)
    else
      var m1 := m.(variables := ev.value.variables);
      match ev.value.result
      case Err(e) => Fails(m1, e)
      case Ok(v) =>
        if v.ResStr? then Fails(m1, IfNeedsInteger)
        else if v.number <= 0 then Succeeds(m1)
        else if fuel == 0 then OutOfFuel
        else ExecCommand(fuel - 1, m1, consequent)
  }

  /** The `for` loop of the `Multiple` branch: parts run in order through
      `interpretCommand`; a failure ends the loop only when the next part
      parsed and is not an `OnErr`, and the loop otherwise ends `Ok`. */
  ghost function ExecAll(fuel: nat, m: Machine, cmds: seq<CommandResult>): (o: Outcome<Step>)
    decreases fuel, 5 + |cmds|
  {
    if cmds == [] then Succeeds(m)
    else
      var o := ExecCommand(fuel, m, cmds[0]);
      if !o.Returns? then o
      else if o.value.result.Err? && StopsAfterFailure(cmds) then o
      else ExecAll(fuel, o.value.machine, cmds[1..])
  }

  /** `runProgram`: `.first()` of an empty selection throws. */
  ghost function StartRun(fuel: nat, m: Machine, start: int): (o: Outcome<Step>)
    decreases fuel, 1
  {
    var keys := MI.Selection(m.lines, start);
    if keys == [] then Throws(MI.EmptyList) else RunLoop(fuel, keys, m.(pc := keys[0]))
  }

  /** The `while (true)` loop of `runProgram`.  A missing line or a failing
      line ends the run with an error; after a line that left `runNext` set
      the run moves to the next selected key, or ends `Ok` when there is
      none; otherwise it stays at `pc`, where a GOTO put it. */
  ghost function RunLoop(fuel: nat, keys: seq<int>, m: Machine): (o: Outcome<Step>)
    decreases fuel, 0
  {
    if fuel == 0 then OutOfFuel
    else if m.pc !in m.lines then Fails(m, NoSuchLineAt(m.pc))
    else
      var o := ExecLine(fuel - 1, m, m.lines[m.pc]);
      if !o.Returns? then o
      else
        var m1 := o.value.machine;
        if o.value.result.Err? then Fails(m1, ErrorOnLine(m1.pc, o.value.result.error))
        else if !m1.runNext then RunLoop(fuel - 1, keys, m1)
        else
          var next := NextIndex(keys, m1.pc);
          if 0 <= next < |keys| then RunLoop(fuel - 1, keys, m1.(pc := keys[next]))
          else Succeeds(m1)
  }

  /** How a method that returns a `Result` ends. */
  function Reply(o: Outcome<Step>): Outcome<Result<()>>
  {
    match o
    case Returns(s) => Returns(s.result)
    case Throws(x) => Throws(x)
    case OutOfFuel => OutOfFuel
  }

  // ---------------------------------------------------------------------
  // The Interpreter object
  // ---------------------------------------------------------------------

  /** `class Interpreter`, with `onPrint` appending to `output`.  The `fuel`
      parameter of the executing methods bounds nested executions exactly
      as in the functions they are proved against. */
  class Interpreter {
    var variables: map<string, MI.ExprResult>
    var lines: map<int, MI.Line>
    var pc: int
    var runNext: bool
    var output: seq<string>

    function Current(): Machine
      reads this
    {
      Machine(variables, lines, pc, runNext, output)
    }

    constructor ()
      ensures Current() == Machine(map[], map[], -1, true, [])
    {
      variables := map[];
      lines := map[];
      pc := -1;
      runNext := true;
      output := [];
    }

    method OnPrint(text: string)
      modifies this
      ensures Current() == PrintLine(old(Current()), text)
    {
      output := output + [text];
    }

    method InterpretCommand(fuel: nat, command: CommandResult) returns (r: Outcome<Result<()>>)
      modifies this
      ensures r == Reply(ExecCommand(fuel, old(Current()), command))
      ensures r.Returns? ==> Current() == ExecCommand(fuel, old(Current()), command).value.machine
      decreases fuel, 4
    {
      match command.command {
        case Ok(c) =>
          r := InterpretLine(fuel, MI.Line(command.original, c));
          if r.Returns? && r.value.Err? && !c.Multiple? {
            OnPrint(r.value.error);
          }
        case Err(e) =>
          runNext := true;
          r := Returns(Err(e));
          OnPrint(e);
      }
    }

    method InterpretLine(fuel: nat, line: MI.Line) returns (r: Outcome<Result<()>>)
      modifies this
      ensures r == Reply(ExecLine(fuel, old(Current()), line))
      ensures r.Returns? ==> Current() == ExecLine(fuel, old(Current()), line).value.machine
      decreases fuel, 3, line.command
    {
      match line.command {
        case Print(e) =>
          runNext := true;
          r := InterpretPrint(e);
        case Assignment(name, e) =>
          runNext := true;
          r := InterpretAssignment(name, e);
        case StoreCommand(n, c) =>
          runNext := true;
          lines := lines[n := MI.Line(line.original, c)];
          r := Returns(Ok(()));
        case ListCommand =>
          runNext := true;
          ListProgramInMemory();
          r := Returns(Ok(()));
        case GoTo(n) =>
          runNext := false;
          pc := n;
          r := Returns(Ok(()));
        case Return =>
          r := Returns(Err(ReturnNotImplemented));
        case Pop =>
          r := Returns(Err(PopNotImplemented));
        case ExpREM =>
          r := Returns(Ok(()));
        case OnErr(c) =>
          r := InterpretLine(fuel, MI.Line(line.original, c));
        case Run(_) | GoSub(_) | If(_, _) | Multiple(_) =>
          r := InterpretNested(fuel, line);
      }
    }

    /** The branches of `interpretLine` that execute further commands: RUN,
        GOSUB, IF and `Multiple`. */
    method InterpretNested(fuel: nat, line: MI.Line) returns (r: Outcome<Result<()>>)
      requires line.command.Run? || line.command.GoSub? || line.command.If? || line.command.Multiple?
      modifies this
      ensures r == Reply(ExecLine(fuel, old(Current()), line))
      ensures r.Returns? ==> Current() == ExecLine(fuel, old(Current()), line).value.machine
      decreases fuel, 2
    {
      match line.command {
        case Run(start) =>
          if fuel == 0 {
            r := OutOfFuel;
          } else {
            runNext := true;
            r := RunProgram(fuel - 1, start);
          }
        case GoSub(n) =>
          runNext := true;
          r := InterpretGoSub(fuel, n);
        case If(cond, consequent) =>
          runNext := true;
          r := InterpretIf(fuel, cond, consequent);
        case Multiple(cmds) =>
          if fuel == 0 {
            r := OutOfFuel;
          } else {
            r := InterpretMultiple(fuel - 1, cmds);
          }
      }
    }

    /** The `for ((index, command) in commands.withIndex())` loop. */
    method InterpretMultiple(fuel: nat, cmds: seq<CommandResult>) returns (r: Outcome<Result<()>>)
      modifies this
      ensures r == Reply(ExecAll(fuel, old(Current()), cmds))
      ensures r.Returns? ==> Current() == ExecAll(fuel, old(Current()), cmds).value.machine
      decreases fuel, 5
    {
      var i := 0;
      while i < |cmds|
        invariant 0 <= i <= |cmds|
        invariant ExecAll(fuel, Current(), cmds[i..]) == ExecAll(fuel, old(Current()), cmds)
      {
        assert cmds[i..][1..] == cmds[i + 1..];
        var res := InterpretCommand(fuel, cmds[i]);
        if !res.Returns? {
          r := res;
          return;
        }
        if res.value.Err? && i + 1 < |cmds| {
          var next := cmds[i + 1].command;
          assert cmds[i..][1] == cmds[i + 1];
          if next.Ok? && !next.value.OnErr? {
            r := res;
            return;
          }
        }
        i := i + 1;
      }
      r := Returns(Ok(()));
    }

    method ListProgramInMemory()
      modifies this
      ensures Current() == ListEffect(old(Current()))
    {
      var linesSorted := SortKeys(lines.Keys);
      PrintOriginals(linesSorted);
    }

    /** The `for (line in linesSorted)` loop of `listProgramInMemory`. */
    method PrintOriginals(keys: seq<int>)
      modifies this
      ensures Current() == old(Current()).(output := old(output) + MI.ListOutput(lines, keys))
    {
      var i := 0;
      while i < |keys|
        invariant 0 <= i <= |keys|
        invariant variables == old(variables) && lines == old(lines) && pc == old(pc)
        invariant runNext == old(runNext)
        invariant output == old(output) + MI.ListOutput(lines, keys[..i])
      {
        var line := keys[i];
        assert keys[..i + 1] == keys[..i] + [line];
        MI.ListOutputSnoc(lines, keys[..i], line);
        if line in lines {
          OnPrint(lines[line].original);
        }
        i := i + 1;
      }
      assert keys[..i] == keys;
    }

    method RunProgram(fuel: nat, start: int) returns (r: Outcome<Result<()>>)
      modifies this
      ensures r == Reply(StartRun(fuel, old(Current()), start))
      ensures r.Returns? ==> Current() == StartRun(fuel, old(Current()), start).value.machine
      decreases fuel, 6
    {
      var linesSorted := SortKeys(set k | k in lines && k >= start);
      if linesSorted == [] {
        r := Throws(MI.EmptyList);
        return;
      }
      pc := linesSorted[0];
      r := RunLines(fuel, linesSorted);
    }

    /** The `while (true)` loop of `runProgram`. */
    method RunLines(fuel: nat, linesSorted: seq<int>) returns (r: Outcome<Result<()>>)
      modifies this
      ensures r == Reply(RunLoop(fuel, linesSorted, old(Current())))
      ensures r.Returns? ==> Current() == RunLoop(fuel, linesSorted, old(Current())).value.machine
      decreases fuel, 5
    {
      var f: nat := fuel;
      while true
        invariant f <= fuel
        invariant RunLoop(f, linesSorted, Current()) == RunLoop(fuel, linesSorted, old(Current()))
        decreases f
      {
        if f == 0 {
          r := OutOfFuel;
          return;
        }
        if pc !in lines {
          r := Returns(Err(NoSuchLineAt(pc)));
          return;
        }
        var res := InterpretLine(f - 1, lines[pc]);
        if !res.Returns? {
          r := res;
          return;
        }
        if res.value.Err? {
          r := Returns(Err(ErrorOnLine(pc, res.value.error)));
          return;
        }
        if runNext {
          var next := IndexOf(linesSorted, pc);
          var at := if next == -1 then -2 else next + 1;
          if 0 <= at < |linesSorted| {
            pc := linesSorted[at];
          } else {
            r := Returns(Ok(()));
            return;
          }
        }
        f := f - 1;
      }
    }

    method InterpretGoSub(fuel: nat, n: int) returns (r: Outcome<Result<()>>)
      modifies this
      ensures r == Reply(GoSubStep(fuel, old(Current()), n))
      ensures r.Returns? ==> Current() == GoSubStep(fuel, old(Current()), n).value.machine
      decreases fuel, 1
    {
      if n !in lines {
        r := Returns(Err(NoSuchLine));
      } else if fuel == 0 {
        r := OutOfFuel;
      } else {
        r := InterpretLine(fuel - 1, lines[n]);
      }
    }

    method InterpretIf(fuel: nat, cond: Expression, consequent: CommandResult) returns (r: Outcome<Result<()>>)
      modifies this
      ensures r == Reply(IfStep(fuel, old(Current()), cond, consequent))
      ensures r.Returns? ==> Current() == IfStep(fuel, old(Current()), cond, consequent).value.machine
      decreases fuel, 1
    {
      var result := Evaluate(variables, cond);
      if result.Throws? {
        r := Throws(result.exception);
        return;
      }
      variables := result.value.variables;
      match result.value.result {
        case Err(e) =>
          r := Returns(Err(e));
        case Ok(v) =>
          if v.ResStr? {
            r := Returns(Err(IfNeedsInteger));
          } else if v.number <= 0 {
            r := Returns(Ok(()));
          } else if fuel == 0 {
            r := OutOfFuel;
          } else {
            r := InterpretCommand(fuel - 1, consequent);
          }
      }
    }

    method InterpretAssignment(name: string, e: Expression) returns (r: Outcome<Result<()>>)
      modifies this
      ensures r == Reply(AssignEffect(old(Current()), name, e))
      ensures r.Returns? ==> Current() == AssignEffect(old(Current()), name, e).value.machine
    {
      var res := Evaluate(variables, e);
      if res.Throws? {
        r := Throws(res.exception);
        return;
      }
      variables := res.value.variables;
      match res.value.result {
        case Ok(v) =>
          variables := variables[name := v];
          r := Returns(Ok(()));
        case Err(msg) =>
          r := Returns(Err(msg));
      }
    }

    method InterpretPrint(e: Expression) returns (r: Outcome<Result<()>>)
      modifies this
      ensures r == Reply(PrintEffect(old(Current()), e))
      ensures r.Returns? ==> Current() == PrintEffect(old(Current()), e).value.machine
    {
      match e {
        case ExpStr(s) =>
          OnPrint(s);
        case ExpInt(n) =>
          OnPrint(IntToString(n));
        case ExpIdentifier(name) =>
          var res := MI.Lookup(variables, name);
          variables := res.variables;
          OnPrint(MI.Shown(res.result.value));
        case ExpBin(_, _, _) | ExpUnr(_, _) =>
          var res := Evaluate(variables, e);
          if res.Throws? {
            r := Throws(res.exception);
            return;
          }
          variables := res.value.variables;
          match res.value.result {
            case Ok(v) =>
              OnPrint(MI.Shown(v));
            case Err(msg) =>
              r := Returns(Err(msg));
              return;
          }
      }
      r := Returns(Ok(()));
    }
  }
  // ---------------------------------------------------------------------
  // Expressions: properties
  // ---------------------------------------------------------------------

  /** Negation is its own inverse on integers; `NOT` gives 1 exactly for
      integers not above 0, so `NOT NOT x` is the truth value of `x > 0`. */
  lemma UnaryOperators(n: int)
    ensures ApplyUnary(UMinus, MI.ResInt(n)) == Ok(MI.ResInt(-n))
    ensures ApplyUnary(UMinus, ApplyUnary(UMinus, MI.ResInt(n)).value) == Ok(MI.ResInt(n))
    ensures ApplyUnary(Not, MI.ResInt(n)) == Ok(MI.Flag(n <= 0))
    ensures ApplyUnary(Not, ApplyUnary(Not, MI.ResInt(n)).value) == Ok(MI.Flag(n > 0))
  {
  }

  /** A unary operator on an operand that evaluates to a string fails with
      an error value and binds nothing beyond what the operand bound. */
  lemma UnaryOnStringFails(vars: map<string, MI.ExprResult>, op: UnaryOp, inner: Expression, s: string)
    requires Evaluate(vars, inner).Returns? && Evaluate(vars, inner).value.result == Ok(MI.ResStr(s))
    ensures var o := Evaluate(vars, ExpUnr(op, inner));
            o.Returns? && o.value.result.Err? && o.value.variables == Evaluate(vars, inner).value.variables
  {
  }

  /** Without `/` or `MOD` anywhere (under unary operators too), evaluation
      never throws: every failure comes back as an `Err` value. */
  lemma {:induction false} PlainExpressionsReturn(vars: map<string, MI.ExprResult>, e: Expression)
    requires !MI.HasDivision(e)
    ensures Evaluate(vars, e).Returns?
    decreases e
  {
    match e
    case ExpUnr(op, inner) =>
      PlainExpressionsReturn(vars, inner);
      assert Evaluate(vars, e) == EvaluateUnary(vars, op, inner);
    case ExpBin(l, op, r) =>
      PlainExpressionsReturn(vars, l);
      PlainExpressionsReturn(Evaluate(vars, l).value.variables, r);
      BinaryReturns(vars, l, op, r);
      assert Evaluate(vars, e) == EvaluateBinary(vars, l, op, r);
    case _ =>
  }

  /** A binary step other than `/` and `MOD` returns once both operands do. */
  lemma BinaryReturns(vars: map<string, MI.ExprResult>, l: Expression, op: BinaryOp, r: Expression)
    requires op != Div && op != Mod
    requires Evaluate(vars, l).Returns? && Evaluate(Evaluate(vars, l).value.variables, r).Returns?
    ensures EvaluateBinary(vars, l, op, r).Returns?
  {
    var left := Evaluate(vars, l);
    var right := Evaluate(left.value.variables, r);
    if left.value.result.Ok? && right.value.result.Ok? {
      MI.ApplyReturns(op, left.value.result.value, right.value.result.value);
    }
  }

  /** Reading a variable that was never set prints 0 and binds it to 0. */
  lemma UnsetVariableReadsZero(m: Machine, name: string)
    requires name !in m.variables
    ensures PrintEffect(m, ExpIdentifier(name))
         == Succeeds(m.(variables := m.variables[name := MI.ResInt(0)], output := m.output + ["0"]))
  {
  }

  /** An assignment binds its name only when the expression evaluates; an
      error is returned, not printed, and leaves an existing binding of the
      name alone. */
  lemma AssignmentBindsOnlyOnSuccess(m: Machine, name: string, e: Expression)
    requires Evaluate(m.variables, e).Returns?
    ensures var ev := Evaluate(m.variables, e).value;
            var o := AssignEffect(m, name, e);
            && o.Returns? && o.value.result.Ok? == ev.result.Ok?
            && (ev.result.Ok? ==> name in o.value.machine.variables
                                  && o.value.machine.variables[name] == ev.result.value)
            && (ev.result.Err? ==> o.value.result.error == ev.result.error
                                   && (name in m.variables ==> o.value.machine.variables[name] == m.variables[name]))
  {
  }

  // ---------------------------------------------------------------------
  // Commands: properties
  // ---------------------------------------------------------------------

  /** A line that did not parse sets `runNext`, prints its error once and
      fails with it; variables, lines and `pc` are unchanged. */
  lemma ParseErrorIsPrinted(fuel: nat, m: Machine, original: string, e: string)
    ensures ExecCommand(fuel, m, CommandResult(original, Err(e)))
         == Fails(m.(runNext := true, output := m.output + [e]), e)
  {
  }

  /** What one `interpretCommand` call prints for a failing command: it
      adds the message to whatever `interpretLine` printed, unless the
      command is a `Multiple`, whose parts went through `interpretCommand`
      themselves.  (Nested calls print again: see
      `IfConsequentFailurePrintedTwice`.) */
  lemma FailuresPrintedByInterpretCommand(fuel: nat, m: Machine, original: string, c: Command, m1: Machine, e: string)
    requires ExecLine(fuel, m, MI.Line(original, c)) == Fails(m1, e)
    ensures !c.Multiple? ==> ExecCommand(fuel, m, CommandResult(original, Ok(c))) == Fails(PrintLine(m1, e), e)
    ensures c.Multiple? ==> ExecCommand(fuel, m, CommandResult(original, Ok(c))) == Fails(m1, e)
  {
  }

  /** A true `IF` runs its consequent through `interpretCommand`, which
      prints a failure; the `IF` then fails with the same message, and the
      outer `interpretCommand` prints it a second time. */
  lemma IfConsequentFailurePrintedTwice(fuel: nat, m: Machine, original: string, n: int,
                                        inner: string, c: Command, m2: Machine, e: string)
    requires fuel >= 1 && n > 0 && !c.Multiple?
    requires ExecLine(fuel - 1, m.(runNext := true), MI.Line(inner, c)) == Fails(m2, e)
    ensures ExecCommand(fuel, m, CommandResult(original, Ok(If(ExpInt(n), CommandResult(inner, Ok(c))))))
         == Fails(m2.(output := m2.output + [e, e]), e)
  {
    var m1 := m.(runNext := true);
    var consequent := CommandResult(inner, Ok(c));
    var once := Fails(PrintLine(m2, e), e);
    FailuresPrintedByInterpretCommand(fuel - 1, m1, inner, c, m2, e);
    IfConditions(fuel, m1, consequent, "", n);
    IfLine(fuel, m, original, ExpInt(n), consequent);
    FailuresPrintedByInterpretCommand(fuel, m, original, If(ExpInt(n), consequent), PrintLine(m2, e), e);
    assert PrintLine(PrintLine(m2, e), e) == m2.(output := m2.output + [e, e]);
  }

  /** `interpretLine` on IF sets `runNext` and runs `interpretIf`. */
  lemma IfLine(fuel: nat, m: Machine, original: string, cond: Expression, consequent: CommandResult)
    ensures ExecLine(fuel, m, MI.Line(original, If(cond, consequent))) == IfStep(fuel, m.(runNext := true), cond, consequent)
  {
  }

  /** `IF 1 THEN RETURN` prints the RETURN message twice. */
  lemma IfOneThenReturnPrintsTwice(fuel: nat, m: Machine, original: string, inner: string)
    requires fuel >= 1
    ensures var o := ExecCommand(fuel, m, CommandResult(original, Ok(If(ExpInt(1), CommandResult(inner, Ok(Return))))));
            o.Returns? && o.value.result == Err(ReturnNotImplemented)
            && o.value.machine.output == m.output + [ReturnNotImplemented, ReturnNotImplemented]
  {
    IfConsequentFailurePrintedTwice(fuel, m, original, 1, inner, Return, m.(runNext := true), ReturnNotImplemented);
  }

  /** Storing a line overwrites whatever was stored under that number and
      leaves every other line, the variables, `pc` and the output alone. */
  lemma StoreOverwrites(fuel: nat, m: Machine, original: string, n: int, c: Command)
    ensures var o := ExecLine(fuel, m, MI.Line(original, StoreCommand(n, c)));
            && o.Returns? && o.value.result.Ok?
            && n in o.value.machine.lines && o.value.machine.lines[n] == MI.Line(original, c)
            && (forall k :: k != n ==> (k in o.value.machine.lines <==> k in m.lines))
            && (forall k :: k != n && k in m.lines ==> o.value.machine.lines[k] == m.lines[k])
            && o.value.machine.variables == m.variables && o.value.machine.pc == m.pc
            && o.value.machine.output == m.output
  {
  }

  /** GOTO only moves `pc` and clears `runNext`; RETURN and POP fail as not
      implemented; REM changes nothing, not even `runNext`; GOSUB to a line
      that is not stored fails. */
  lemma ControlCommands(fuel: nat, m: Machine, original: string, n: int)
    ensures ExecLine(fuel, m, MI.Line(original, GoTo(n))) == Succeeds(m.(runNext := false, pc := n))
    ensures ExecLine(fuel, m, MI.Line(original, Return)) == Fails(m, ReturnNotImplemented)
    ensures ExecLine(fuel, m, MI.Line(original, Pop)) == Fails(m, PopNotImplemented)
    ensures ExecLine(fuel, m, MI.Line(original, ExpREM)) == Succeeds(m)
    ensures n !in m.lines ==> ExecLine(fuel, m, MI.Line(original, GoSub(n))) == Fails(m.(runNext := true), NoSuchLine)
  {
  }

  /** ONERR runs the command it guards, with the same line text, whatever
      that command's outcome. */
  lemma OnErrRunsItsCommand(fuel: nat, m: Machine, original: string, c: Command)
    ensures ExecLine(fuel, m, MI.Line(original, OnErr(c))) == ExecLine(fuel, m, MI.Line(original, c))
  {
  }

  /** A string condition fails; an integer that is not above 0 skips the
      consequent; a positive integer runs it, and its outcome is the IF's. */
  lemma IfConditions(fuel: nat, m: Machine, consequent: CommandResult, s: string, n: int)
    ensures IfStep(fuel, m, ExpStr(s), consequent) == Fails(m, IfNeedsInteger)
    ensures n <= 0 ==> IfStep(fuel, m, ExpInt(n), consequent) == Succeeds(m)
    ensures n > 0 && fuel > 0 ==> IfStep(fuel, m, ExpInt(n), consequent) == ExecCommand(fuel - 1, m, consequent)
  {
  }

  // ---------------------------------------------------------------------
  // Multiple
  // ---------------------------------------------------------------------

  /** A failed part ends the `Multiple` with its failure exactly when the
      next part parsed and is not an `OnErr`; otherwise the remaining parts
      run as if the failure had not happened. */
  lemma MultipleFailureRule(fuel: nat, m: Machine, cmds: seq<CommandResult>, m1: Machine, e: string)
    requires cmds != [] && ExecCommand(fuel, m, cmds[0]) == Fails(m1, e)
    ensures StopsAfterFailure(cmds) ==> ExecAll(fuel, m, cmds) == Fails(m1, e)
    ensures !StopsAfterFailure(cmds) ==> ExecAll(fuel, m, cmds) == ExecAll(fuel, m1, cmds[1..])
  {
  }

  /** A failure in the last part is not the `Multiple`'s: it ends `Ok`. */
  lemma LastFailureIsOk(fuel: nat, m: Machine, c: CommandResult, m1: Machine, e: string)
    requires ExecCommand(fuel, m, c) == Fails(m1, e)
    ensures ExecAll(fuel, m, [c]) == Succeeds(m1)
  {
    assert [c][1..] == [];
  }

  /** A part that did not parse stops the `Multiple` when a parsed part
      follows it, and is passed over when an `ONERR` follows it. */
  lemma ParseErrorInMultiple(fuel: nat, m: Machine, bad: string, e: string, next: CommandResult)
    requires next.command.Ok?
    ensures var cmds := [CommandResult(bad, Err(e)), next];
            var m1 := m.(runNext := true, output := m.output + [e]);
            && (!next.command.value.OnErr? ==> ExecAll(fuel, m, cmds) == Fails(m1, e))
            && (next.command.value.OnErr? ==> ExecAll(fuel, m, cmds) == ExecAll(fuel, m1, [next]))
  {
    var cmds := [CommandResult(bad, Err(e)), next];
    assert cmds[1..] == [next];
    MultipleFailureRule(fuel, m, cmds, m.(runNext := true, output := m.output + [e]), e);
  }

  /** A part that prints a string literal. */
  predicate PrintsLiteral(cr: CommandResult)
  {
    cr.command.Ok? && cr.command.value.Print? && cr.command.value.expression.ExpStr?
  }

  function LiteralText(cr: CommandResult): string
    requires PrintsLiteral(cr)
  {
    cr.command.value.expression.text
  }

  function LiteralTexts(cmds: seq<CommandResult>): seq<string>
    requires forall i :: 0 <= i < |cmds| ==> PrintsLiteral(cmds[i])
  {
    if cmds == [] then [] else [LiteralText(cmds[0])] + LiteralTexts(cmds[1..])
  }

  /** The parts of a `Multiple` run in order: parts that print literals
      print them all, and the `Multiple` ends `Ok`. */
  lemma {:induction false} MultiplePrintsInOrder(fuel: nat, m: Machine, cmds: seq<CommandResult>)
    requires forall i :: 0 <= i < |cmds| ==> PrintsLiteral(cmds[i])
    ensures ExecAll(fuel, m, cmds)
         == Succeeds(m.(runNext := m.runNext || cmds != [], output := m.output + LiteralTexts(cmds)))
    decreases |cmds|
  {
    if cmds != [] {
      var m1 := m.(runNext := true, output := m.output + [LiteralText(cmds[0])]);
      LiteralPartStep(fuel, m, cmds);
      assert forall i :: 0 <= i < |cmds[1..]| ==> PrintsLiteral(cmds[1..][i]);
      MultiplePrintsInOrder(fuel, m1, cmds[1..]);
      AppendAssociates(m.output, [LiteralText(cmds[0])], LiteralTexts(cmds[1..]));
      assert m.output + LiteralTexts(cmds) == m1.output + LiteralTexts(cmds[1..]);
    } else {
      assert m.output + [] == m.output;
    }
  }

  /** The first part, a literal PRINT, prints its text and the loop goes on. */
  lemma LiteralPartStep(fuel: nat, m: Machine, cmds: seq<CommandResult>)
    requires cmds != [] && PrintsLiteral(cmds[0])
    ensures ExecAll(fuel, m, cmds)
         == ExecAll(fuel, m.(runNext := true, output := m.output + [LiteralText(cmds[0])]), cmds[1..])
  {
    var m1 := m.(runNext := true, output := m.output + [LiteralText(cmds[0])]);
    assert ExecCommand(fuel, m, cmds[0]) == Succeeds(m1);
  }

  // ---------------------------------------------------------------------
  // LIST
  // ---------------------------------------------------------------------

  /** LIST prints the original text of every stored line, one per line, in
      ascending line-number order, and changes nothing else; listing twice
      prints the same block twice. */
  lemma ListShowsEveryLineInOrder(m: Machine)
    ensures var keys := SortedKeys(m.lines.Keys);
            var shown := ListEffect(m).output[|m.output|..];
            && ListEffect(m) == m.(output := m.output + shown)
            && |shown| == |m.lines| == |keys|
            && StrictlyIncreasing(keys) && (forall k :: k in keys <==> k in m.lines)
            && (forall i :: 0 <= i < |keys| ==> shown[i] == m.lines[keys[i]].original)
            && ListEffect(ListEffect(m)).output == m.output + shown + shown
  {
    var keys := SortedKeys(m.lines.Keys);
    MI.ListOutputAll(m.lines, keys);
    var shown := MI.ListOutput(m.lines, keys);
    assert ListEffect(m).output[|m.output|..] == shown;
  }

  // ---------------------------------------------------------------------
  // RUN
  // ---------------------------------------------------------------------

  /** RUN with no stored line at or above its start reaches `.first()` of
      an empty list. */
  lemma RunWithoutLinesThrows(fuel: nat, m: Machine, original: string, start: int)
    requires fuel > 0
    requires forall k :: k in m.lines ==> k < start
    ensures ExecLine(fuel, m, MI.Line(original, Run(start))) == Throws(MI.EmptyList)
  {
    assert (set k | k in m.lines && k >= start) == {};
  }

  /** A failing line ends the run with its error, prefixed by its line. */
  lemma RunStopsAtFailingLine(fuel: nat, keys: seq<int>, m: Machine, m1: Machine, e: string)
    requires fuel > 0 && m.pc in m.lines
    requires ExecLine(fuel - 1, m, m.lines[m.pc]) == Fails(m1, e)
    ensures RunLoop(fuel, keys, m) == Fails(m1, ErrorOnLine(m1.pc, e))
  {
  }

  /** A GOTO to a line that is not stored ends the run with an error. */
  lemma GoToMissingLineFails(fuel: nat, keys: seq<int>, m: Machine, target: int)
    requires fuel >= 2
    requires m.pc in m.lines && m.lines[m.pc].command == GoTo(target) && target !in m.lines
    ensures RunLoop(fuel, keys, m) == Fails(m.(runNext := false, pc := target), NoSuchLineAt(target))
  {
    var m1 := m.(runNext := false, pc := target);
    assert ExecLine(fuel - 1, m, m.lines[m.pc]) == Succeeds(m1);
  }

  /** REM leaves `runNext` as it found it, so once a GOTO has cleared it a
      REM line runs again and again: the run never ends, whatever bound is
      put on it. */
  lemma {:induction false} RemAfterGoToNeverEnds(fuel: nat, keys: seq<int>, m: Machine)
    requires m.pc in m.lines && m.lines[m.pc].command == ExpREM && !m.runNext
    ensures RunLoop(fuel, keys, m) == OutOfFuel
    decreases fuel
  {
    if fuel > 0 {
      assert ExecLine(fuel - 1, m, m.lines[m.pc]) == Succeeds(m);
      RemAfterGoToNeverEnds(fuel - 1, keys, m);
    }
  }

  /** So `10 GOTO 20` followed by `20 REM` never ends once RUN reaches 10. */
  lemma GoToRemNeverEnds(fuel: nat, keys: seq<int>, m: Machine, target: int)
    requires m.pc in m.lines && m.lines[m.pc].command == GoTo(target)
    requires target in m.lines && m.lines[target].command == ExpREM
    ensures RunLoop(fuel, keys, m) == OutOfFuel
  {
    if fuel > 0 {
      var m1 := m.(runNext := false, pc := target);
      assert ExecLine(fuel - 1, m, m.lines[m.pc]) == Succeeds(m1);
      RemAfterGoToNeverEnds(fuel - 1, keys, m1);
    }
  }

  /** One turn of the RUN loop on the PRINT line at `keys[i]`. */
  lemma RunLoopPrintStep(fuel: nat, keys: seq<int>, m: Machine, i: nat)
    requires MI.PrintsOnly(m.lines) && StrictlyIncreasing(keys)
    requires forall j :: 0 <= j < |keys| ==> keys[j] in m.lines
    requires i < |keys| && m.pc == keys[i] && fuel > 0
    ensures var m1 := m.(runNext := true, output := m.output + [MI.TextAt(m.lines, keys, i)]);
            RunLoop(fuel, keys, m)
            == if i + 1 < |keys| then RunLoop(fuel - 1, keys, m1.(pc := keys[i + 1])) else Succeeds(m1)
  {
    assert MI.PrintsText(m.lines[m.pc]);
    var m1 := m.(runNext := true, output := m.output + [MI.TextAt(m.lines, keys, i)]);
    assert ExecLine(fuel - 1, m, m.lines[m.pc]) == Succeeds(m1);
    MI.IndexOfIncreasing(keys, i);
    assert keys[i] in keys;
  }

  lemma {:induction false} RunLoopPrints(fuel: nat, keys: seq<int>, m: Machine, i: nat)
    requires MI.PrintsOnly(m.lines) && StrictlyIncreasing(keys)
    requires forall j :: 0 <= j < |keys| ==> keys[j] in m.lines
    requires i < |keys| && m.pc == keys[i] && fuel >= |keys| - i
    ensures RunLoop(fuel, keys, m)
         == Succeeds(m.(runNext := true, output := m.output + MI.Printed(m.lines, keys[i..]), pc := keys[|keys| - 1]))
    decreases |keys| - i
  {
    if i + 1 < |keys| {
      var m2 := m.(runNext := true, output := m.output + [MI.TextAt(m.lines, keys, i)], pc := keys[i + 1]);
      RunLoopPrints(fuel - 1, keys, m2, i + 1);
      RunLoopPrintsMiddle(fuel, keys, m, i, m2);
    } else {
      RunLoopPrintsLast(fuel, keys, m, i);
    }
  }

  /** The run loop on a PRINT line that has a next line, given how the
      loop goes on from the next line. */
  lemma RunLoopPrintsMiddle(fuel: nat, keys: seq<int>, m: Machine, i: nat, m2: Machine)
    requires MI.PrintsOnly(m.lines) && StrictlyIncreasing(keys)
    requires forall j :: 0 <= j < |keys| ==> keys[j] in m.lines
    requires i + 1 < |keys| && m.pc == keys[i] && fuel > 0
    requires m2 == m.(runNext := true, output := m.output + [MI.TextAt(m.lines, keys, i)], pc := keys[i + 1])
    requires RunLoop(fuel - 1, keys, m2)
          == Succeeds(m2.(runNext := true, output := m2.output + MI.Printed(m2.lines, keys[i + 1..]), pc := keys[|keys| - 1]))
    ensures RunLoop(fuel, keys, m)
         == Succeeds(m.(runNext := true, output := m.output + MI.Printed(m.lines, keys[i..]), pc := keys[|keys| - 1]))
  {
    RunLoopPrintStep(fuel, keys, m, i);
    MI.PrintedUnfold(m.lines, keys, i);
    AppendAssociates(m.output, [MI.TextAt(m.lines, keys, i)], MI.Printed(m.lines, keys[i + 1..]));
    var printed := m.output + MI.Printed(m.lines, keys[i..]);
    assert m2.output + MI.Printed(m2.lines, keys[i + 1..]) == printed;
    assert m2.(runNext := true, output := printed, pc := keys[|keys| - 1])
        == m.(runNext := true, output := printed, pc := keys[|keys| - 1]);
  }

  /** The run loop on the last selected PRINT line. */
  lemma RunLoopPrintsLast(fuel: nat, keys: seq<int>, m: Machine, i: nat)
    requires MI.PrintsOnly(m.lines) && StrictlyIncreasing(keys)
    requires forall j :: 0 <= j < |keys| ==> keys[j] in m.lines
    requires i + 1 == |keys| && m.pc == keys[i] && fuel > 0
    ensures RunLoop(fuel, keys, m)
         == Succeeds(m.(runNext := true, output := m.output + MI.Printed(m.lines, keys[i..]), pc := keys[|keys| - 1]))
  {
    RunLoopPrintStep(fuel, keys, m, i);
    MI.PrintedUnfold(m.lines, keys, i);
    var m1 := m.(runNext := true, output := m.output + [MI.TextAt(m.lines, keys, i)]);
    assert keys[i + 1..] == [];
    assert MI.Printed(m.lines, keys[i..]) == [MI.TextAt(m.lines, keys, i)];
    assert m1 == m.(runNext := true, output := m.output + MI.Printed(m.lines, keys[i..]), pc := keys[|keys| - 1]);
  }

  /** RUN over a program of PRINT lines, once in its loop at the first
      selected line, prints them all in ascending line-number order, ends
      `Ok` after the last one and leaves `pc` on it. */
  lemma RunPrintsInLineOrder(fuel: nat, keys: seq<int>, m: Machine, m0: Machine, last: Machine)
    requires MI.PrintsOnly(m.lines) && StrictlyIncreasing(keys) && keys != []
    requires forall j :: 0 <= j < |keys| ==> keys[j] in m.lines
    requires fuel >= |keys| && m0 == m.(runNext := true, pc := keys[0])
    requires last == m.(runNext := true, output := m.output + MI.Printed(m.lines, keys), pc := keys[|keys| - 1])
    ensures RunLoop(fuel, keys, m0) == Succeeds(last)
  {
    RunLoopPrints(fuel, keys, m0, 0);
    assert keys[0..] == keys;
    var printed := m.output + MI.Printed(m.lines, keys);
    assert m0.(runNext := true, output := printed, pc := keys[|keys| - 1])
        == m.(runNext := true, output := printed, pc := keys[|keys| - 1]);
  }

  /** RUN enters the run loop at the first selected line. */
  lemma RunCommandStarts(fuel: nat, m: Machine, original: string, start: int, keys: seq<int>, m0: Machine)
    requires keys == MI.Selection(m.lines, start) && keys != [] && fuel > 0
    requires m0 == m.(runNext := true, pc := keys[0])
    ensures ExecLine(fuel, m, MI.Line(original, Run(start))) == RunLoop(fuel - 1, keys, m0)
  {
    assert MI.Selection(m.(runNext := true).lines, start) == keys;
  }
}
