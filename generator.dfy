/** The C++ code generator (examples/statemachine/src/cli/generator.ts):
    constant folding of guards and attribute defaults (`evalExprWithEnv`) and
    the templates that print the state pattern.

    The generated text is modelled as its sequence of lines with the template
    indentation already stripped (the form the test suite compares after
    `normalizeCode`); the empty separator lines langium inserts are not part of
    the model. The `StatemachineEnv` map the templates share is an
    `Environment` object updated in place. */
module Generator {
  import opened Results
  import opened Values
  import opened Ast

  /** `StatemachineEnv`: attribute name to folded value. */
  type StatemachineEnv = map<string, Value>

  // ---------------------------------------------------------------------------
  // Constant folding: evalExprWithEnv

  /** `cond ? 1 : 0`. */
  function Flag(cond: bool): Value {
    Num(if cond then 1 else 0)
  }

  /** The `switch (opval)` of `evalExprWithEnv` on two evaluated operands.
      Arithmetic and comparisons work on JavaScript's numeric conversion,
      `===`/`!==` on the values themselves (a number is never strictly equal to
      a boolean), `&&`/`||` on truthiness. Division is modelled only when it is
      exact; otherwise JavaScript produces a fraction, Infinity or NaN. */
  function ApplyBinOp(op: string, v1: Value, v2: Value): Result<Value> {
    var a := ToNumber(v1);
    var b := ToNumber(v2);
    if op == "+" then Ok(Num(a + b))
    else if op == "-" then Ok(Num(a - b))
    else if op == "*" then Ok(Num(a * b))
    else if op == "/" then (if b != 0 && a % b == 0 then Ok(Num(a / b)) else Err(DivisionNotModelled))
    else if op == "<" then Ok(Flag(a < b))
    else if op == ">" then Ok(Flag(a > b))
    else if op == "<=" then Ok(Flag(a <= b))
    else if op == ">=" then Ok(Flag(a >= b))
    else if op == "==" then Ok(Flag(v1 == v2))
    else if op == "!=" then Ok(Flag(v1 != v2))
    else if op == "&&" then Ok(Flag(Truthy(v1) && Truthy(v2)))
    else if op == "||" then Ok(Flag(Truthy(v1) || Truthy(v2)))
    else Err(UnrecognizedBinOp(op))
  }

  /** `evalExprWithEnv`: both operands of a binary expression are evaluated,
      left first, before the operator is looked at; a reference is looked up
      by the referenced attribute's name. */
  function Eval(e: Expression, env: StatemachineEnv): Result<Value> {
    match e
    case Literal(v) => Ok(v)
    case Ref(name) => if name in env then Ok(env[name]) else Err(UnboundReference(name))
    case BinExpr(e1, op, e2) =>
      var v1 :- Eval(e1, env);
      var v2 :- Eval(e2, env);
      ApplyBinOp(op, v1, v2)
    case NegBoolExpr(ne) =>
      var v :- Eval(ne, env);
      Ok(Num(-1 * ToNumber(v)))
    case NegIntExpr(ne) =>
      var v :- Eval(ne, env);
      Ok(Num(-1 * ToNumber(v)))
    case Group(ge) => Eval(ge, env)
  }

  /** The attribute names an expression refers to. */
  function RefsOf(e: Expression): set<string> {
    match e
    case Literal(_) => {}
    case Ref(name) => {name}
    case BinExpr(e1, _, e2) => RefsOf(e1) + RefsOf(e2)
    case NegBoolExpr(ne) => RefsOf(ne)
    case NegIntExpr(ne) => RefsOf(ne)
    case Group(ge) => RefsOf(ge)
  }

  /** The operators an expression uses. */
  function OpsOf(e: Expression): set<string> {
    match e
    case Literal(_) => {}
    case Ref(_) => {}
    case BinExpr(e1, op, e2) => OpsOf(e1) + {op} + OpsOf(e2)
    case NegBoolExpr(ne) => OpsOf(ne)
    case NegIntExpr(ne) => OpsOf(ne)
    case Group(ge) => OpsOf(ge)
  }

  /** The ten comparison and logical operators yield 1 or 0, never another number or a boolean. */
  lemma ComparisonsYieldFlags(op: string, v1: Value, v2: Value)
    requires op in BinOps - {"+", "-", "*", "/"}
    ensures ApplyBinOp(op, v1, v2) == Ok(Num(0)) || ApplyBinOp(op, v1, v2) == Ok(Num(1))
  {
  }

  /** `&&` holds exactly when both operands are truthy, `||` when at least one is. */
  lemma LogicalOperatorsFollowTruthiness(v1: Value, v2: Value)
    ensures ApplyBinOp("&&", v1, v2) == Ok(Num(1)) <==> Truthy(v1) && Truthy(v2)
    ensures ApplyBinOp("||", v1, v2) == Ok(Num(1)) <==> Truthy(v1) || Truthy(v2)
  {
  }

  /** Strict equality separates a number from a boolean even when they convert to the same number. */
  lemma StrictEqualitySeparatesTypes(n: int, b: bool)
    ensures ApplyBinOp("==", Num(n), Bool(b)) == Ok(Num(0))
    ensures ApplyBinOp("!=", Num(n), Bool(b)) == Ok(Num(1))
  {
  }

  /** An operator is rejected exactly when it is not one of the twelve. */
  lemma UnrecognizedExactlyOutsideBinOps(op: string, v1: Value, v2: Value)
    ensures ApplyBinOp(op, v1, v2) == Err(UnrecognizedBinOp(op)) <==> op !in BinOps
  {
  }

  /** Both negation nodes negate the numeric value, so negating twice gives
      back the operand as a number; a group is transparent. */
  lemma NegationAndGrouping(e: Expression, env: StatemachineEnv)
    ensures Eval(NegBoolExpr(e), env) == Eval(NegIntExpr(e), env)
    ensures Eval(e, env).Ok? ==> Eval(NegIntExpr(NegIntExpr(e)), env) == Ok(Num(ToNumber(Eval(e, env).value)))
    ensures Eval(Group(e), env) == Eval(e, env)
  {
    match Eval(e, env)
    case Err(_) =>
    case Ok(v) =>
      var m := -1 * ToNumber(v);
      assert Eval(NegIntExpr(e), env) == Ok(Num(m));
      assert Eval(NegIntExpr(NegIntExpr(e)), env) == Ok(Num(-1 * m));
      assert -1 * m == ToNumber(v);
  }

  /** Folding succeeds when every reference is bound, every operator is one of
      the twelve and no division occurs. */
  lemma {:induction false} EvalTotalOnClosedExpressions(e: Expression, env: StatemachineEnv)
    requires RefsOf(e) <= env.Keys
    requires OpsOf(e) <= BinOps - {"/"}
    ensures Eval(e, env).Ok?
  {
    match e
    case Literal(_) =>
    case Ref(_) =>
    case BinExpr(e1, op, e2) =>
      EvalTotalOnClosedExpressions(e1, env);
      EvalTotalOnClosedExpressions(e2, env);
    case NegBoolExpr(ne) => EvalTotalOnClosedExpressions(ne, env);
    case NegIntExpr(ne) => EvalTotalOnClosedExpressions(ne, env);
    case Group(ge) => EvalTotalOnClosedExpressions(ge, env);
  }

  /** Every failure has a cause inside the expression: an unbound reference it
      makes, an operator it uses outside the twelve, or a division. */
  lemma {:induction false} EvalFailureHasCause(e: Expression, env: StatemachineEnv)
    requires Eval(e, env).Err?
    ensures match Eval(e, env).error
      case UnboundReference(name) => name in RefsOf(e) && name !in env
      case UnrecognizedBinOp(op) => op in OpsOf(e) && op !in BinOps
      case DivisionNotModelled => "/" in OpsOf(e)
      case _ => false
  {
    match e
    case Literal(_) =>
    case Ref(_) =>
    case BinExpr(e1, op, e2) =>
      if Eval(e1, env).Err? {
        EvalFailureHasCause(e1, env);
      } else if Eval(e2, env).Err? {
        EvalFailureHasCause(e2, env);
      }
    case NegBoolExpr(ne) => EvalFailureHasCause(ne, env);
    case NegIntExpr(ne) => EvalFailureHasCause(ne, env);
    case Group(ge) => EvalFailureHasCause(ge, env);
  }

  /** There is no short-circuit: a successful fold has looked up every reference
      of the expression, so all of them are bound. */
  lemma {:induction false} EvalSuccessBindsEveryRef(e: Expression, env: StatemachineEnv)
    requires Eval(e, env).Ok?
    ensures RefsOf(e) <= env.Keys
  {
    match e
    case Literal(_) =>
    case Ref(_) =>
    case BinExpr(e1, op, e2) =>
      EvalSuccessBindsEveryRef(e1, env);
      EvalSuccessBindsEveryRef(e2, env);
    case NegBoolExpr(ne) => EvalSuccessBindsEveryRef(ne, env);
    case NegIntExpr(ne) => EvalSuccessBindsEveryRef(ne, env);
    case Group(ge) => EvalSuccessBindsEveryRef(ge, env);
  }

  /** Binding more names never changes a successful fold. */
  lemma {:induction false} EvalStableUnderExtension(e: Expression, env: StatemachineEnv, env': StatemachineEnv)
    requires Eval(e, env).Ok?
    requires forall name :: name in env ==> name in env' && env'[name] == env[name]
    ensures Eval(e, env') == Eval(e, env)
  {
    match e
    case Literal(_) =>
    case Ref(_) =>
    case BinExpr(e1, op, e2) =>
      EvalStableUnderExtension(e1, env, env');
      EvalStableUnderExtension(e2, env, env');
    case NegBoolExpr(ne) => EvalStableUnderExtension(ne, env, env');
    case NegIntExpr(ne) => EvalStableUnderExtension(ne, env, env');
    case Group(ge) => EvalStableUnderExtension(ge, env, env');
  }

  // ---------------------------------------------------------------------------
  // Lines and blocks of lines

  /** The middle of `line` when it starts with `prefix` and ends with `suffix`. */
  function Unwrap(line: string, prefix: string, suffix: string): (r: Option<string>)
    ensures r.Some? ==> line == prefix + r.value + suffix
  {
    if |prefix| + |suffix| <= |line| && line[..|prefix|] == prefix && line[|line| - |suffix|..] == suffix
    then Some(line[|prefix|..|line| - |suffix|])
    else None
  }

  lemma UnwrapWrap(prefix: string, middle: string, suffix: string)
    ensures Unwrap(prefix + middle + suffix, prefix, suffix) == Some(middle)
  {
    var line := prefix + middle + suffix;
    assert line[..|prefix|] == prefix;
    assert line[|line| - |suffix|..] == suffix;
    assert line[|prefix|..|line| - |suffix|] == middle;
  }

  /** `join(items, block)`: the blocks of lines of every item, in order. */
  function Blocks<T>(items: seq<T>, block: T -> seq<string>): seq<string>
    decreases |items|
  {
    if items == [] then [] else block(items[0]) + Blocks(items[1..], block)
  }

  /** Reads consecutive blocks of `k` lines back into items, up to the first block `read` rejects. */
  function ParseBlocks<T>(lines: seq<string>, k: nat, read: seq<string> -> Option<T>): seq<T>
    decreases |lines|
  {
    if k == 0 || |lines| < k then []
    else match read(lines[..k])
      case None => []
      case Some(item) => [item] + ParseBlocks(lines[k..], k, read)
  }

  lemma {:induction false} BlocksLength<T>(items: seq<T>, k: nat, block: T -> seq<string>)
    requires forall item :: |block(item)| == k
    ensures |Blocks(items, block)| == k * |items|
    decreases |items|
  {
    if items != [] {
      BlocksLength(items[1..], k, block);
    }
  }

  /** Blocks that `read` inverts are read back as the items they were printed from. */
  lemma {:induction false} ParseBlocksOfBlocks<T>(items: seq<T>, rest: seq<string>, k: nat,
                                                  block: T -> seq<string>, read: seq<string> -> Option<T>)
    requires k > 0
    requires forall item :: |block(item)| == k && read(block(item)) == Some(item)
    requires |rest| < k || read(rest[..k]) == None
    ensures ParseBlocks(Blocks(items, block) + rest, k, read) == items
    decreases |items|
  {
    var lines := Blocks(items, block) + rest;
    if items == [] {
      assert lines == rest;
    } else {
      assert lines == block(items[0]) + (Blocks(items[1..], block) + rest);
      assert lines[..k] == block(items[0]);
      assert lines[k..] == Blocks(items[1..], block) + rest;
      ParseBlocksOfBlocks(items[1..], rest, k, block, read);
    }
  }

  // ---------------------------------------------------------------------------
  // generateStateClass: the abstract State with a default handler per event

  const ImpossibleEvent := "std::cout << \"Impossible event for the current state.\" << std::endl;"

  function StateClassHeader(machine: string): seq<string> {
    ["class State {",
     "protected:",
     machine + " *statemachine;",
     "public:",
     "virtual ~State() {}",
     "void set_context(" + machine + " *statemachine) {",
     "this->statemachine = statemachine;",
     "}",
     "virtual std::string get_name() {",
     "return \"Unknown\";",
     "}"]
  }

  /** The default handler of an event: the current state does not accept it. */
  function HandlerBlock(event: Event): seq<string> {
    ["virtual void " + event.name + "() {",
     ImpossibleEvent,
     "}"]
  }

  function ReadHandler(lines: seq<string>): Option<Event> {
    if |lines| != 3 then None
    else match Unwrap(lines[0], "virtual void ", "() {")
      case None => None
      case Some(name) => if lines == HandlerBlock(Event(name)) then Some(Event(name)) else None
  }

  /** `generateStateClass`. */
  function GenerateStateClass(sm: Statemachine): seq<string> {
    StateClassHeader(sm.name) + Blocks(sm.events, HandlerBlock) + ["};"]
  }

  /** The State class declares one virtual handler per event, in declaration
      order, each reporting an impossible event, and then only the closing brace. */
  lemma StateClassHandlesEveryEvent(sm: Statemachine)
    ensures GenerateStateClass(sm)[..11] == StateClassHeader(sm.name)
    ensures ParseBlocks(GenerateStateClass(sm)[11..], 3, ReadHandler) == sm.events
    ensures |GenerateStateClass(sm)| == 11 + 3 * |sm.events| + 1
    ensures GenerateStateClass(sm)[11 + 3 * |sm.events|..] == ["};"]
  {
    forall ev: Event ensures |HandlerBlock(ev)| == 3 && ReadHandler(HandlerBlock(ev)) == Some(ev) {
      UnwrapWrap("virtual void ", ev.name, "() {");
    }
    BlocksLength(sm.events, 3, HandlerBlock);
    assert GenerateStateClass(sm)[11..] == Blocks(sm.events, HandlerBlock) + ["};"];
    ParseBlocksOfBlocks(sm.events, ["};"], 3, HandlerBlock, ReadHandler);
  }

  // ---------------------------------------------------------------------------
  // generateStatemachineClass: the context class forwarding every event

  function StatemachineClassHeader(machine: string): seq<string> {
    ["class " + machine + " {",
     "private:",
     "State* state = nullptr;",
     "public:",
     machine + "(State* initial_state) {",
     "initial_state->set_context(this);",
     "state = initial_state;",
     "std::cout << \"[op\" << state->get_name() <<  \"]\" << std::endl;",
     "}",
     "~" + machine + "() {",
     "if (state != nullptr) {",
     "delete state;",
     "}",
     "}",
     "void transition_to(State *new_state) {",
     "std::cout << state->get_name() << \" ===> \" << new_state->get_name() << std::endl;",
     "if (state != nullptr) {",
     "delete state;",
     "}",
     "new_state->set_context(this);",
     "state = new_state;",
     "}"]
  }

  /** The context's method for an event: it delegates to the current state's method of the same name. */
  function ForwarderBlock(event: Event): seq<string> {
    ["void " + event.name + "() {",
     "state->" + event.name + "();",
     "}"]
  }

  function ReadForwarder(lines: seq<string>): Option<Event> {
    if |lines| != 3 then None
    else match Unwrap(lines[0], "void ", "() {")
      case None => None
      case Some(name) => if lines == ForwarderBlock(Event(name)) then Some(Event(name)) else None
  }

  /** `generateStatemachineClass`. */
  function GenerateStatemachineClass(sm: Statemachine): seq<string> {
    StatemachineClassHeader(sm.name) + Blocks(sm.events, ForwarderBlock) + ["};"]
  }

  /** The context class forwards every event, in declaration order, to the
      current state's method of the same name, and then only closes. */
  lemma StatemachineClassForwardsEveryEvent(sm: Statemachine)
    ensures GenerateStatemachineClass(sm)[..22] == StatemachineClassHeader(sm.name)
    ensures ParseBlocks(GenerateStatemachineClass(sm)[22..], 3, ReadForwarder) == sm.events
    ensures |GenerateStatemachineClass(sm)| == 22 + 3 * |sm.events| + 1
    ensures GenerateStatemachineClass(sm)[22 + 3 * |sm.events|..] == ["};"]
  {
    forall ev: Event ensures |ForwarderBlock(ev)| == 3 && ReadForwarder(ForwarderBlock(ev)) == Some(ev) {
      UnwrapWrap("void ", ev.name, "() {");
    }
    BlocksLength(sm.events, 3, ForwarderBlock);
    assert GenerateStatemachineClass(sm)[22..] == Blocks(sm.events, ForwarderBlock) + ["};"];
    ParseBlocksOfBlocks(sm.events, ["};"], 3, ForwarderBlock, ReadForwarder);
  }

  // ---------------------------------------------------------------------------
  // generateStateDeclaration: one class per state, one override per transition

  function TransitionEvents(transitions: seq<Transition>): (r: seq<string>)
    ensures |r| == |transitions|
    ensures forall i :: 0 <= i < |r| ==> r[i] == transitions[i].event
  {
    seq(|transitions|, i requires 0 <= i < |transitions| => transitions[i].event)
  }

  function OverrideLine(event: string): seq<string> {
    ["void " + event + "() override;"]
  }

  function ReadOverride(lines: seq<string>): Option<string> {
    if |lines| != 1 then None else Unwrap(lines[0], "void ", "() override;")
  }

  const GetNamePrefix := "std::string get_name() override { return \""
  const GetNameSuffix := "\"; }"

  /** `generateStateDeclaration`. */
  function GenerateStateDeclaration(state: State): seq<string> {
    ["class " + state.name + " : public State {",
     "public:",
     GetNamePrefix + state.name + GetNameSuffix]
    + Blocks(TransitionEvents(state.transitions), OverrideLine)
    + ["};"]
  }

  /** A state's class reports the state's own name and overrides the method of
      each of its transitions' events, in order (an event with two transitions
      is overridden twice). */
  lemma StateDeclarationOverridesEveryTransition(state: State)
    ensures Unwrap(GenerateStateDeclaration(state)[2], GetNamePrefix, GetNameSuffix) == Some(state.name)
    ensures ParseBlocks(GenerateStateDeclaration(state)[3..], 1, ReadOverride) == TransitionEvents(state.transitions)
  {
    UnwrapWrap(GetNamePrefix, state.name, GetNameSuffix);
    forall ev: string ensures |OverrideLine(ev)| == 1 && ReadOverride(OverrideLine(ev)) == Some(ev) {
      UnwrapWrap("void ", ev, "() override;");
    }
    var events := TransitionEvents(state.transitions);
    assert GenerateStateDeclaration(state)[3..] == Blocks(events, OverrideLine) + ["};"];
    ParseBlocksOfBlocks(events, ["};"], 1, OverrideLine, ReadOverride);
  }

  // ---------------------------------------------------------------------------
  // generateStateDefinition: the event methods with their folded guards

  /** What the definition of one transition's method says: the event, the
      folded guard as printed, and the target state. */
  datatype Definition = Definition(event: string, guard: string, target: string)

  const NotAllowed := "std::cout << \"Transition not allowed.\" << std::endl;"

  function DefinitionBlock(stateName: string, d: Definition): seq<string> {
    ["void " + stateName + "::" + d.event + "() {",
     "if(" + d.guard + ") {",
     "statemachine->transition_to(new " + d.target + ");",
     "} else {",
     NotAllowed,
     "}",
     "}"]
  }

  function DefinitionBlockOf(stateName: string): Definition -> seq<string> {
    (d: Definition) => DefinitionBlock(stateName, d)
  }

  function ReadDefinition(stateName: string, lines: seq<string>): Option<Definition> {
    if |lines| != 7 then None
    else match (Unwrap(lines[0], "void " + stateName + "::", "() {"),
                Unwrap(lines[1], "if(", ") {"),
                Unwrap(lines[2], "statemachine->transition_to(new ", ");"))
      case (Some(event), Some(guard), Some(target)) =>
        var d := Definition(event, guard, target);
        if lines == DefinitionBlock(stateName, d) then Some(d) else None
      case _ => None
  }

  /** The guard as `generateStateDefinition` prints it: `true` without a guard,
      otherwise whether the folded guard is greater than 0. */
  function FoldGuard(guard: Option<Expression>, env: StatemachineEnv): Result<string> {
    match guard
    case None => Ok("true")
    case Some(g) =>
      var v :- Eval(g, env);
      Ok(if ToNumber(v) > 0 then "true" else "false")
  }

  /** The transitions' definitions in order; the first guard that cannot be folded aborts. */
  function Definitions(transitions: seq<Transition>, env: StatemachineEnv): Result<seq<Definition>>
    decreases |transitions|
  {
    if transitions == [] then Ok([])
    else
      var guard :- FoldGuard(transitions[0].guard, env);
      var rest :- Definitions(transitions[1..], env);
      Ok([Definition(transitions[0].event, guard, transitions[0].state)] + rest)
  }

  /** `generateStateDefinition`. */
  function GenerateStateDefinition(state: State, env: StatemachineEnv): Result<seq<string>> {
    var defs :- Definitions(state.transitions, env);
    Ok(["// " + state.name] + Blocks(defs, DefinitionBlockOf(state.name)))
  }

  /** One definition per transition, in order, with the transition's event and
      target; the printed guard is `true` exactly when the transition is unguarded
      or its guard folds to a positive number, `false` otherwise. Folding fails
      exactly when some guard fails to fold. */
  lemma {:induction false} DefinitionsMatchTransitions(transitions: seq<Transition>, env: StatemachineEnv)
    ensures Definitions(transitions, env).Err? <==>
      exists i :: 0 <= i < |transitions| && transitions[i].guard.Some? && Eval(transitions[i].guard.value, env).Err?
    ensures Definitions(transitions, env).Ok? ==>
      var defs := Definitions(transitions, env).value;
      |defs| == |transitions| &&
      forall i :: 0 <= i < |defs| ==>
        defs[i].event == transitions[i].event && defs[i].target == transitions[i].state &&
        (defs[i].guard == "true" || defs[i].guard == "false") &&
        (defs[i].guard == "true" <==>
          transitions[i].guard.None? || ToNumber(Eval(transitions[i].guard.value, env).value) > 0)
    decreases |transitions|
  {
    if transitions != [] {
      DefinitionsMatchTransitions(transitions[1..], env);
      var t := transitions[0];
      if Definitions(transitions, env).Err? {
        if FoldGuard(t.guard, env).Ok? {
          var i :| 0 <= i < |transitions[1..]| && transitions[1..][i].guard.Some?
                   && Eval(transitions[1..][i].guard.value, env).Err?;
          assert transitions[i + 1] == transitions[1..][i];
        }
      } else {
        var defs := Definitions(transitions, env).value;
        var rest := Definitions(transitions[1..], env).value;
        assert defs == [defs[0]] + rest;
        forall i | 0 < i < |defs|
          ensures defs[i].event == transitions[i].event && defs[i].target == transitions[i].state
        {
          assert defs[i] == rest[i - 1] && transitions[i] == transitions[1..][i - 1];
        }
        forall i | 0 <= i < |transitions| && transitions[i].guard.Some?
          ensures Eval(transitions[i].guard.value, env).Ok?
        {
          if i > 0 {
            assert transitions[i] == transitions[1..][i - 1];
          }
        }
      }
    }
  }

  /** A state's definitions are headed by its name and read back as exactly
      the definitions of its transitions. */
  lemma StateDefinitionRoundTrip(state: State, env: StatemachineEnv)
    requires GenerateStateDefinition(state, env).Ok?
    ensures GenerateStateDefinition(state, env).value[0] == "// " + state.name
    ensures ParseBlocks(GenerateStateDefinition(state, env).value[1..], 7,
                        (lines: seq<string>) => ReadDefinition(state.name, lines))
            == Definitions(state.transitions, env).value
  {
    var block := DefinitionBlockOf(state.name);
    var read := (lines: seq<string>) => ReadDefinition(state.name, lines);
    forall d: Definition ensures |block(d)| == 7 && read(block(d)) == Some(d) {
      UnwrapWrap("void " + state.name + "::", d.event, "() {");
      UnwrapWrap("if(", d.guard, ") {");
      UnwrapWrap("statemachine->transition_to(new ", d.target, ");");
    }
    var defs := Definitions(state.transitions, env).value;
    assert GenerateStateDefinition(state, env).value[1..] == Blocks(defs, block) + [];
    ParseBlocksOfBlocks(defs, [], 7, block, read);
  }

  // ---------------------------------------------------------------------------
  // generateAttributeInitialization and generateMain

  function DeclarationLine(name: string, text: string): string {
    "int " + name + " = " + text + ";"
  }

  function EchoLine(name: string, text: string): string {
    "std::cout << \"" + name + ": \" << " + text + " << std::endl;"
  }

  /** The value a C++ declaration `int NAME = TEXT;` initialises NAME to. */
  function ReadDeclaration(name: string, line: string): Option<Value> {
    match Unwrap(line, "int " + name + " = ", ";")
    case None => None
    case Some(text) => ReadValue(text)
  }

  /** The value a line `std::cout << "NAME: " << TEXT << std::endl;` prints for NAME. */
  function ReadEcho(name: string, line: string): Option<Value> {
    match Unwrap(line, "std::cout << \"" + name + ": \" << ", " << std::endl;")
    case None => None
    case Some(text) => ReadValue(text)
  }

  /** `generateAttributeInitialization` as a function of the env before it:
      the printed lines and the env after it. */
  function AttributeInitialization(attribute: Attribute, env: StatemachineEnv): Result<(seq<string>, StatemachineEnv)> {
    match attribute.defaultValue
    case None => Ok(([DeclarationLine(attribute.name, "0")], env))
    case Some(d) =>
      var v :- Eval(d, env);
      Ok(([DeclarationLine(attribute.name, Text(v)), EchoLine(attribute.name, Text(v))], env[attribute.name := v]))
  }

  /** An attribute with a default is declared with the folded default, the same
      value is echoed and recorded in the env under the attribute's name, and no
      other name changes; one without is declared 0 and leaves the env alone.
      Only a default that cannot be folded makes it fail. */
  lemma AttributeInitializationDeclaresFoldedValue(attribute: Attribute, env: StatemachineEnv)
    ensures AttributeInitialization(attribute, env).Err? <==>
      attribute.defaultValue.Some? && Eval(attribute.defaultValue.value, env).Err?
    ensures AttributeInitialization(attribute, env).Ok? ==>
      var (lines, env') := AttributeInitialization(attribute, env).value;
      (attribute.defaultValue.None? ==>
        |lines| == 1 && ReadDeclaration(attribute.name, lines[0]) == Some(Num(0)) && env' == env) &&
      (attribute.defaultValue.Some? ==>
        |lines| == 2 && attribute.name in env' &&
        Eval(attribute.defaultValue.value, env) == Ok(env'[attribute.name]) &&
        ReadDeclaration(attribute.name, lines[0]) == Some(env'[attribute.name]) &&
        ReadEcho(attribute.name, lines[1]) == Some(env'[attribute.name]) &&
        forall name :: name != attribute.name ==> (name in env' <==> name in env) && (name in env ==> env'[name] == env[name]))
  {
    var name := attribute.name;
    match attribute.defaultValue
    case None =>
      UnwrapWrap("int " + name + " = ", "0", ";");
      TextRoundTrip(Num(0));
    case Some(d) =>
      if Eval(d, env).Ok? {
        var text := Text(Eval(d, env).value);
        UnwrapWrap("int " + name + " = ", text, ";");
        UnwrapWrap("std::cout << \"" + name + ": \" << ", text, " << std::endl;");
        TextRoundTrip(Eval(d, env).value);
      }
  }

  /** `result`, with `lines` put before the lines it carries. */
  function PrependLines(lines: seq<string>, result: Result<(seq<string>, StatemachineEnv)>): Result<(seq<string>, StatemachineEnv)> {
    if result.Err? then result else Ok((lines + result.value.0, result.value.1))
  }

  lemma PrependNothing(result: Result<(seq<string>, StatemachineEnv)>)
    ensures PrependLines([], result) == result
  {
    if result.Ok? {
      assert [] + result.value.0 == result.value.0;
    }
  }

  lemma PrependTwice(first: seq<string>, second: seq<string>, result: Result<(seq<string>, StatemachineEnv)>)
    ensures PrependLines(first, PrependLines(second, result)) == PrependLines(first + second, result)
  {
    if result.Ok? {
      assert first + (second + result.value.0) == (first + second) + result.value.0;
    }
  }

  /** The attribute initialisations of `generateMain`, in order, each folding
      its default in the env the earlier ones left; the first failure aborts. */
  function AttributeInitializations(attributes: seq<Attribute>, env: StatemachineEnv): Result<(seq<string>, StatemachineEnv)>
    decreases |attributes|
  {
    if attributes == [] then Ok(([], env))
    else
      var first :- AttributeInitialization(attributes[0], env);
      PrependLines(first.0, AttributeInitializations(attributes[1..], first.1))
  }

  /** The names of the attributes that have a default. */
  function InitialisedNames(attributes: seq<Attribute>): set<string> {
    set i | 0 <= i < |attributes| && attributes[i].defaultValue.Some? :: attributes[i].name
  }

  lemma InitialisedNamesOfCons(attributes: seq<Attribute>)
    requires attributes != []
    ensures InitialisedNames(attributes)
            == (if attributes[0].defaultValue.Some? then {attributes[0].name} else {}) + InitialisedNames(attributes[1..])
  {
    var a := attributes[0];
    var names := InitialisedNames(attributes);
    var restNames := InitialisedNames(attributes[1..]);
    forall n | n in names ensures n in (if a.defaultValue.Some? then {a.name} else {}) + restNames {
      var i :| 0 <= i < |attributes| && attributes[i].defaultValue.Some? && attributes[i].name == n;
      if i > 0 {
        assert attributes[1..][i - 1] == attributes[i];
      }
    }
    forall n | n in restNames ensures n in names {
      var i :| 0 <= i < |attributes[1..]| && attributes[1..][i].defaultValue.Some? && attributes[1..][i].name == n;
      assert attributes[i + 1] == attributes[1..][i];
    }
  }

  /** After the initialisations the env binds exactly what it bound before plus
      every attribute that has a default. */
  lemma {:induction false} AttributeInitializationsBindDefaults(attributes: seq<Attribute>, env: StatemachineEnv)
    requires AttributeInitializations(attributes, env).Ok?
    ensures AttributeInitializations(attributes, env).value.1.Keys == env.Keys + InitialisedNames(attributes)
    decreases |attributes|
  {
    if attributes != [] {
      var a := attributes[0];
      var first := AttributeInitialization(a, env).value;
      assert first.1.Keys == env.Keys + (if a.defaultValue.Some? then {a.name} else {}) by {
        if a.defaultValue.Some? {
          assert first.1 == env[a.name := Eval(a.defaultValue.value, env).value];
        }
      }
      AttributeInitializationsBindDefaults(attributes[1..], first.1);
      InitialisedNamesOfCons(attributes);
    }
  }

  /** A default can only fold when every attribute it refers to is bound
      already or is an earlier attribute with a default: later attributes and
      attributes without a default are never in the env when it is folded. */
  lemma {:induction false} DefaultsReferToEarlierAttributes(attributes: seq<Attribute>, env: StatemachineEnv, i: nat)
    requires AttributeInitializations(attributes, env).Ok?
    requires i < |attributes| && attributes[i].defaultValue.Some?
    ensures RefsOf(attributes[i].defaultValue.value) <= env.Keys + InitialisedNames(attributes[..i])
    decreases |attributes|
  {
    var a := attributes[0];
    AttributeInitializationDeclaresFoldedValue(a, env);
    var first := AttributeInitialization(a, env).value;
    if i == 0 {
      EvalSuccessBindsEveryRef(a.defaultValue.value, env);
    } else {
      DefaultsReferToEarlierAttributes(attributes[1..], first.1, i - 1);
      assert attributes[1..][i - 1] == attributes[i];
      var earlier := InitialisedNames(attributes[..i]);
      var restEarlier := InitialisedNames(attributes[1..][..i - 1]);
      assert first.1.Keys <= env.Keys + earlier by {
        if a.defaultValue.Some? {
          assert attributes[..i][0] == a;
        }
      }
      assert restEarlier <= earlier by {
        forall n | n in restEarlier ensures n in earlier {
          var j :| 0 <= j < i - 1 && attributes[1..][..i - 1][j].defaultValue.Some? && attributes[1..][..i - 1][j].name == n;
          assert attributes[..i][j + 1] == attributes[1..][..i - 1][j];
        }
      }
    }
  }

  function RegistrationLine(machine: string, event: string): string {
    "event_by_name[\"" + event + "\"] = &" + machine + "::" + event + ";"
  }

  /** Reads `event_by_name["E"] = &MACHINE::E;` back into the event E. */
  function ReadRegistration(machine: string, lines: seq<string>): Option<Event> {
    if |lines| != 1 then None
    else match Unwrap(lines[0], "event_by_name[\"", ";")
      case None => None
      case Some(middle) =>
        if |middle| < 8 + |machine| then None
        else
          var name := middle[..(|middle| - 8 - |machine|) / 2];
          if lines[0] == RegistrationLine(machine, name) then Some(Event(name)) else None
  }

  function MainHeader(sm: Statemachine): seq<string> {
    ["int main() {",
     sm.name + " *statemachine = new " + sm.name + "(new " + sm.init + ");",
     "static std::map<std::string, Event> event_by_name;"]
  }

  const InputLoop := "for (std::string input; std::getline(std::cin, input);) {"

  function MainFooter(machine: string): seq<string> {
    [InputLoop,
     "std::map<std::string, Event>::const_iterator event_by_name_it = event_by_name.find(input);",
     "if (event_by_name_it == event_by_name.end()) {",
     "std::cout << \"There is no event <\" << input << \"> in the " + machine + " statemachine.\" << std::endl;",
     "continue;",
     "}",
     "Event event_invoker = event_by_name_it->second;",
     "(statemachine->*event_invoker)();",
     "}",
     "delete statemachine;",
     "return 0;",
     "}"]
  }

  function RegistrationBlock(machine: string): Event -> seq<string> {
    (e: Event) => [RegistrationLine(machine, e.name)]
  }

  function Registrations(sm: Statemachine): seq<string> {
    Blocks(sm.events, RegistrationBlock(sm.name))
  }

  /** `generateMain` as a function of the env before it: the printed lines and the env after it. */
  function Main(sm: Statemachine, env: StatemachineEnv): Result<(seq<string>, StatemachineEnv)> {
    var inits :- AttributeInitializations(sm.attributes, env);
    Ok((MainHeader(sm) + (Registrations(sm) + (inits.0 + MainFooter(sm.name))), inits.1))
  }

  /** `main` starts the machine in its initial state, then registers every
      event under its own name, in declaration order, before the attribute
      initialisations. */
  lemma MainRegistersEveryEvent(sm: Statemachine, env: StatemachineEnv)
    requires Main(sm, env).Ok?
    ensures Main(sm, env).value.0[1] == sm.name + " *statemachine = new " + sm.name + "(new " + sm.init + ");"
    ensures 3 + |sm.events| <= |Main(sm, env).value.0|
    ensures ParseBlocks(Main(sm, env).value.0[3..3 + |sm.events|], 1,
                        (lines: seq<string>) => ReadRegistration(sm.name, lines)) == sm.events
  {
    var block := RegistrationBlock(sm.name);
    var read := (lines: seq<string>) => ReadRegistration(sm.name, lines);
    forall e: Event ensures |block(e)| == 1 && read(block(e)) == Some(e) {
      RegistrationReadsBack(sm.name, e.name);
    }
    BlocksLength(sm.events, 1, block);
    var registrations := Blocks(sm.events, block);
    var rest := AttributeInitializations(sm.attributes, env).value.0 + MainFooter(sm.name);
    var lines := MainHeader(sm) + (registrations + rest);
    assert Main(sm, env).value.0 == lines;
    assert lines[3..3 + |sm.events|] == registrations + [];
    ParseBlocksOfBlocks(sm.events, [], 1, block, read);
  }

  lemma RegistrationReadsBack(machine: string, event: string)
    ensures ReadRegistration(machine, [RegistrationLine(machine, event)]) == Some(Event(event))
  {
    var middle := event + "\"] = &" + machine + "::" + event;
    assert RegistrationLine(machine, event) == "event_by_name[\"" + middle + ";";
    UnwrapWrap("event_by_name[\"", middle, ";");
    assert |middle| == 2 * |event| + 8 + |machine| by {
      assert |"\"] = &"| == 6 && |"::"| == 2;
    }
    assert (|middle| - 8 - |machine|) / 2 == |event|;
    assert middle[..|event|] == event;
  }

  // ---------------------------------------------------------------------------
  // The shared env, updated in place

  /** The `StatemachineEnv` map `generateCppContent` creates and hands to the templates. */
  class Environment {
    var values: StatemachineEnv

    constructor()
      ensures values == map[]
    {
      values := map[];
    }

    /** `env.set(name, v)`. */
    method Set(name: string, v: Value)
      modifies this
      ensures values == old(values)[name := v]
    {
      values := values[name := v];
    }
  }

  /** `generateAttributeInitialization`: folds the default in the env, records
      it there, and prints the declaration and the echo. */
  method GenerateAttributeInitialization(attribute: Attribute, env: Environment) returns (r: Result<seq<string>>)
    modifies env
    ensures AttributeInitialization(attribute, old(env.values)).Ok? ==>
      r == Ok(AttributeInitialization(attribute, old(env.values)).value.0) &&
      env.values == AttributeInitialization(attribute, old(env.values)).value.1
    ensures AttributeInitialization(attribute, old(env.values)).Err? ==>
      r == Err(AttributeInitialization(attribute, old(env.values)).error) && env.values == old(env.values)
  {
    if attribute.defaultValue.Some? {
      var folded := Eval(attribute.defaultValue.value, env.values);
      if folded.Err? {
        return Err(folded.error);
      }
      var v := folded.value;
      env.Set(attribute.name, v);
      r := Ok([DeclarationLine(attribute.name, Text(v)), EchoLine(attribute.name, Text(env.values[attribute.name]))]);
    } else {
      r := Ok([DeclarationLine(attribute.name, "0")]);
    }
  }

  /** The attribute loop of `generateMain`: each initialisation in order,
      against the shared env. */
  method GenerateAttributeInitializations(attributes: seq<Attribute>, env: Environment) returns (r: Result<seq<string>>)
    modifies env
    ensures AttributeInitializations(attributes, old(env.values)).Ok? ==>
      r == Ok(AttributeInitializations(attributes, old(env.values)).value.0) &&
      env.values == AttributeInitializations(attributes, old(env.values)).value.1
    ensures AttributeInitializations(attributes, old(env.values)).Err? ==>
      r == Err(AttributeInitializations(attributes, old(env.values)).error)
  {
    var lines: seq<string> := [];
    assert attributes[0..] == attributes;
    PrependNothing(AttributeInitializations(attributes, env.values));
    for i := 0 to |attributes|
      invariant AttributeInitializations(attributes, old(env.values))
                == PrependLines(lines, AttributeInitializations(attributes[i..], env.values))
    {
      assert attributes[i..][0] == attributes[i] && attributes[i..][1..] == attributes[i + 1..];
      ghost var before := env.values;
      var next := GenerateAttributeInitialization(attributes[i], env);
      if next.Err? {
        return Err(next.error);
      }
      assert AttributeInitializations(attributes[i..], before)
             == PrependLines(next.value, AttributeInitializations(attributes[i + 1..], env.values));
      PrependTwice(lines, next.value, AttributeInitializations(attributes[i + 1..], env.values));
      lines := lines + next.value;
    }
    assert attributes[|attributes|..] == [];
    assert lines + [] == lines;
    r := Ok(lines);
  }

  /** `generateMain`: the header, the event registrations, the attribute
      initialisations against the shared env, then the input loop. */
  method GenerateMain(sm: Statemachine, env: Environment) returns (r: Result<seq<string>>)
    modifies env
    ensures Main(sm, old(env.values)).Ok? ==>
      r == Ok(Main(sm, old(env.values)).value.0) && env.values == Main(sm, old(env.values)).value.1
    ensures Main(sm, old(env.values)).Err? ==> r == Err(Main(sm, old(env.values)).error)
  {
    var inits := GenerateAttributeInitializations(sm.attributes, env);
    if inits.Err? {
      return Err(inits.error);
    }
    r := Ok(MainHeader(sm) + (Registrations(sm) + (inits.value + MainFooter(sm.name))));
  }

  // ---------------------------------------------------------------------------
  // generateCppContent

  function Preamble(machine: string): seq<string> {
    ["#include <iostream>", "#include <map>", "#include <string>", "class " + machine + ";"]
  }

  /** The definitions of every state, in order; the first failure aborts. */
  function StateDefinitions(states: seq<State>, env: StatemachineEnv): Result<seq<string>>
    decreases |states|
  {
    if states == [] then Ok([])
    else
      var first :- GenerateStateDefinition(states[0], env);
      var rest :- StateDefinitions(states[1..], env);
      Ok(first + rest)
  }

  /** `generateCppContent`. The template is filled left to right: the state
      definitions fold their guards before `generateMain` has put any attribute
      into the env, so guards are folded in the empty env. */
  function CppContent(sm: Statemachine): Result<seq<string>> {
    var definitions :- StateDefinitions(sm.states, map[]);
    var main :- Main(sm, map[]);
    Ok(Preamble(sm.name) + GenerateStateClass(sm) + GenerateStatemachineClass(sm)
       + Blocks(sm.states, GenerateStateDeclaration) + definitions
       + ["typedef void (" + sm.name + "::*Event)();"] + main.0)
  }

  /** `generateCppContent`, creating the env and handing it to the templates in template order. */
  method GenerateCppContent(sm: Statemachine) returns (r: Result<seq<string>>)
    ensures r == CppContent(sm)
  {
    var env := new Environment();
    var header := Preamble(sm.name) + GenerateStateClass(sm) + GenerateStatemachineClass(sm)
                  + Blocks(sm.states, GenerateStateDeclaration);
    var definitions := StateDefinitions(sm.states, env.values);
    if definitions.Err? {
      return Err(definitions.error);
    }
    var main := GenerateMain(sm, env);
    if main.Err? {
      return Err(main.error);
    }
    r := Ok(header + definitions.value + ["typedef void (" + sm.name + "::*Event)();"] + main.value);
  }

  /** Folding succeeds for every guard of every state exactly when the state definitions can be generated. */
  lemma {:induction false} StateDefinitionsFoldEveryGuard(states: seq<State>, env: StatemachineEnv)
    ensures StateDefinitions(states, env).Ok? <==>
      forall i, j :: 0 <= i < |states| && 0 <= j < |states[i].transitions| && states[i].transitions[j].guard.Some?
        ==> Eval(states[i].transitions[j].guard.value, env).Ok?
    decreases |states|
  {
    if states != [] {
      StateDefinitionsFoldEveryGuard(states[1..], env);
      DefinitionsMatchTransitions(states[0].transitions, env);
      forall i | 0 < i < |states| ensures states[i] == states[1..][i - 1] {
      }
    }
  }

  /** Generation succeeds only when no guard refers to an attribute: the guards
      are folded before any attribute value is in the env. */
  lemma CppContentNeedsAttributeFreeGuards(sm: Statemachine, i: nat, j: nat)
    requires CppContent(sm).Ok?
    requires i < |sm.states| && j < |sm.states[i].transitions| && sm.states[i].transitions[j].guard.Some?
    ensures RefsOf(sm.states[i].transitions[j].guard.value) == {}
  {
    StateDefinitionsFoldEveryGuard(sm.states, map[]);
    EvalSuccessBindsEveryRef(sm.states[i].transitions[j].guard.value, map[]);
  }
}
