/** The statemachine interpreter drafts (examples/statemachine/src/cli/interpreter.ts).

    Two drafts are modelled. The first seeds an environment with the zero value
    of each attribute type (`getDefault`, `initEnv`). The second is a complete
    interpreter over its own small syntax tree: integer expressions
    (`evalExpr`), boolean expressions (`evalBoolExpr`), attribute
    initialisation, actions, transition selection and the event loop.

    Object references of the draft (`transition.targetState`,
    `statemachine.initialState`) are modelled by state names, resolved against
    the machine's state list when they are followed. What `console.log` prints
    is returned as a trace of values. */
module Interpreter {
  import opened Results
  import opened Values
  import Ast
  import Generator

  // ---------------------------------------------------------------------------
  // First draft: getDefault and initEnv

  /** `getDefault`: the zero value of a type name; any name other than `int` and `bool` throws. */
  function GetDefault(typeName: string): (r: Result<Value>)
    ensures r.Ok? <==> typeName == "int" || typeName == "bool"
    ensures r.Ok? ==> (r.value == Num(0) <==> typeName == "int") && (r.value == Bool(false) <==> typeName == "bool")
    ensures r.Err? ==> r.error == UnknownType(typeName)
  {
    if typeName == "int" then Ok(Num(0))
    else if typeName == "bool" then Ok(Bool(false))
    else Err(UnknownType(typeName))
  }

  /** The env `initEnv` builds from the first `|attributes|` attributes: each
      attribute, in order, set to its type's zero value (a later attribute of
      the same name overwrites an earlier one). */
  function InitEnvOf(attributes: seq<Ast.Attribute>): Result<map<string, Value>>
    decreases |attributes|
  {
    if attributes == [] then Ok(map[])
    else
      var env :- InitEnvOf(attributes[..|attributes| - 1]);
      var last := attributes[|attributes| - 1];
      var v :- GetDefault(last.typeName);
      Ok(env[last.name := v])
  }

  lemma {:induction false} InitEnvErrorPersists(attributes: seq<Ast.Attribute>, n: nat)
    requires n <= |attributes| && InitEnvOf(attributes[..n]).Err?
    ensures InitEnvOf(attributes) == InitEnvOf(attributes[..n])
    decreases |attributes| - n
  {
    if n < |attributes| {
      assert attributes[..n + 1][..n] == attributes[..n];
      InitEnvErrorPersists(attributes, n + 1);
    } else {
      assert attributes[..n] == attributes;
    }
  }

  /** `initEnv`: fills a fresh env attribute by attribute. */
  method InitEnv(attributes: seq<Ast.Attribute>) returns (r: Result<map<string, Value>>)
    ensures r == InitEnvOf(attributes)
  {
    var env: map<string, Value> := map[];
    for i := 0 to |attributes|
      invariant InitEnvOf(attributes[..i]) == Ok(env)
    {
      assert attributes[..i + 1][..i] == attributes[..i];
      var v := GetDefault(attributes[i].typeName);
      if v.Err? {
        InitEnvErrorPersists(attributes, i + 1);
        return Err(v.error);
      }
      env := env[attributes[i].name := v.value];
    }
    assert attributes[..|attributes|] == attributes;
    r := Ok(env);
  }

  /** `initEnv` succeeds exactly when every attribute's type is `int` or `bool`. */
  lemma {:induction false} InitEnvSucceedsOnKnownTypes(attributes: seq<Ast.Attribute>)
    ensures InitEnvOf(attributes).Ok? <==>
      forall i :: 0 <= i < |attributes| ==> attributes[i].typeName in {"int", "bool"}
    decreases |attributes|
  {
    if attributes != [] {
      var n := |attributes| - 1;
      InitEnvSucceedsOnKnownTypes(attributes[..n]);
      assert forall i :: 0 <= i < n ==> attributes[..n][i] == attributes[i];
    }
  }

  /** The env `initEnv` builds binds exactly the attribute names. */
  lemma {:induction false} InitEnvBindsEveryAttribute(attributes: seq<Ast.Attribute>)
    requires InitEnvOf(attributes).Ok?
    ensures InitEnvOf(attributes).value.Keys == set i | 0 <= i < |attributes| :: attributes[i].name
    decreases |attributes|
  {
    if attributes != [] {
      var n := |attributes| - 1;
      var prefix := attributes[..n];
      InitEnvBindsEveryAttribute(prefix);
      var names := set i | 0 <= i < |attributes| :: attributes[i].name;
      var prefixNames := set i | 0 <= i < n :: prefix[i].name;
      assert names == prefixNames + {attributes[n].name} by {
        forall x | x in names ensures x in prefixNames + {attributes[n].name} {
          var i :| 0 <= i < |attributes| && attributes[i].name == x;
          if i < n {
            assert prefix[i].name == x;
          }
        }
        forall x | x in prefixNames ensures x in names {
          var i :| 0 <= i < n && prefix[i].name == x;
          assert attributes[i].name == x;
        }
      }
    }
  }

  /** Each attribute whose name no later attribute reuses holds its type's zero value. */
  lemma {:induction false} InitEnvSeedsZeroValues(attributes: seq<Ast.Attribute>, i: nat)
    requires InitEnvOf(attributes).Ok?
    requires i < |attributes|
    requires forall j :: i < j < |attributes| ==> attributes[j].name != attributes[i].name
    ensures attributes[i].name in InitEnvOf(attributes).value
    ensures Ok(InitEnvOf(attributes).value[attributes[i].name]) == GetDefault(attributes[i].typeName)
    decreases |attributes|
  {
    var n := |attributes| - 1;
    if i < n {
      InitEnvSeedsZeroValues(attributes[..n], i);
      assert attributes[..n][i] == attributes[i];
    }
  }

  // ---------------------------------------------------------------------------
  // Second draft: its syntax tree

  /** `Expr`: integer expressions. A reference names the referenced attribute. */
  datatype Expr =
    | Lit(value: int)
    | RefExpr(attribute: string)
    | Add(left: Expr, right: Expr)
    | Mult(left: Expr, right: Expr)
    | GroupExpr(expr: Expr)
    | Neg(expr: Expr)

  datatype ComparisonOp = Le | Lt | Ge | Gt | Eq | Ne

  datatype BoolOp = Or | And

  /** `BoolExpr`: boolean expressions. */
  datatype BoolExpr =
    | BoolLit(value: bool)
    | BoolGroup(expr: BoolExpr)
    | Comparison(left: Expr, comparison: ComparisonOp, right: Expr)
    | Bin(leftBool: BoolExpr, boolOp: BoolOp, rightBool: BoolExpr)
    | ExprAsBool(inner: Expr)

  /** `Expr | BoolExpr`, the value of an assignment or a print statement. */
  datatype Node = IntNode(intExpr: Expr) | BoolNode(boolExpr: BoolExpr)

  /** `Action = Assignment | PrintStatement`. */
  datatype Action =
    | Assignment(variable: string, value: Node)
    | PrintStatement(value: Node)

  datatype AttributeType = IntType | BoolType

  datatype Attribute = Attribute(name: string, attributeType: AttributeType, defaultValue: Option<Node>)

  /** `targetState` names the state the transition leads to. */
  datatype Transition = Transition(event: string, guard: Option<BoolExpr>, targetState: string, actions: seq<Action>)

  datatype State = State(name: string, transitions: seq<Transition>)

  /** `initialState` names the state the machine starts in. */
  datatype Statemachine = Statemachine(
    name: string,
    events: seq<string>,
    attributes: seq<Attribute>,
    initialState: string,
    states: seq<State>)

  // ---------------------------------------------------------------------------
  // The environment

  /** `Environment.get` on the map of values: throws for a name never set. */
  function Lookup(values: map<string, Value>, name: string): (r: Result<Value>)
    ensures r.Ok? <==> name in values
    ensures r.Ok? ==> r.value == values[name]
    ensures r.Err? ==> r.error == UndefinedAttribute(name)
  {
    if name in values then Ok(values[name]) else Err(UndefinedAttribute(name))
  }

  /** `Environment`: the interpreter's attribute store, updated in place. */
  class Environment {
    var values: map<string, Value>

    constructor()
      ensures values == map[]
    {
      values := map[];
    }

    function Get(name: string): Result<Value>
      reads this
    {
      Lookup(values, name)
    }

    /** After `set(n, v)`, `get(n)` is `v` and every other name reads as before. */
    method Set(name: string, value: Value)
      modifies this
      ensures values == old(values)[name := value]
      ensures Get(name) == Ok(value)
      ensures forall other :: other != name ==> Get(other) == old(Get(other))
    {
      values := values[name := value];
    }
  }

  // ---------------------------------------------------------------------------
  // evalExpr and evalBoolExpr

  /** `evalExpr`. A reference yields the stored value as it is (`as number`
      converts nothing); `+`, `*` and negation convert their operands to numbers. */
  function EvalExpr(e: Expr, values: map<string, Value>): Result<Value> {
    match e
    case Lit(n) => Ok(Num(n))
    case RefExpr(name) => Lookup(values, name)
    case Add(l, r) =>
      var a :- EvalExpr(l, values);
      var b :- EvalExpr(r, values);
      Ok(Num(ToNumber(a) + ToNumber(b)))
    case Mult(l, r) =>
      var a :- EvalExpr(l, values);
      var b :- EvalExpr(r, values);
      Ok(Num(ToNumber(a) * ToNumber(b)))
    case GroupExpr(inner) => EvalExpr(inner, values)
    case Neg(inner) =>
      var a :- EvalExpr(inner, values);
      Ok(Num(-ToNumber(a)))
  }

  function Compare(op: ComparisonOp, a: Value, b: Value): bool {
    match op
    case Le => ToNumber(a) <= ToNumber(b)
    case Lt => ToNumber(a) < ToNumber(b)
    case Ge => ToNumber(a) >= ToNumber(b)
    case Gt => ToNumber(a) > ToNumber(b)
    case Eq => a == b
    case Ne => a != b
  }

  /** `evalBoolExpr`. Both sides of a comparison or a `||`/`&&` are evaluated,
      left first; `exprAsBool` is `evalExpr(e) !== 0`. */
  function EvalBool(b: BoolExpr, values: map<string, Value>): Result<bool> {
    match b
    case BoolLit(v) => Ok(v)
    case BoolGroup(inner) => EvalBool(inner, values)
    case Comparison(l, op, r) =>
      var x :- EvalExpr(l, values);
      var y :- EvalExpr(r, values);
      Ok(Compare(op, x, y))
    case Bin(l, op, r) =>
      var x :- EvalBool(l, values);
      var y :- EvalBool(r, values);
      Ok(if op == Or then x || y else x && y)
    case ExprAsBool(e) =>
      var v :- EvalExpr(e, values);
      Ok(v != Num(0))
  }

  // ---------------------------------------------------------------------------
  // Agreement with the generator's constant folding

  /** The generator's expression for a draft integer expression. */
  function ToAst(e: Expr): Ast.Expression {
    match e
    case Lit(n) => Ast.Literal(Num(n))
    case RefExpr(name) => Ast.Ref(name)
    case Add(l, r) => Ast.BinExpr(ToAst(l), "+", ToAst(r))
    case Mult(l, r) => Ast.BinExpr(ToAst(l), "*", ToAst(r))
    case GroupExpr(inner) => Ast.Group(ToAst(inner))
    case Neg(inner) => Ast.NegIntExpr(ToAst(inner))
  }

  function ComparisonOperator(op: ComparisonOp): string {
    match op
    case Le => "<="
    case Lt => "<"
    case Ge => ">="
    case Gt => ">"
    case Eq => "=="
    case Ne => "!="
  }

  /** The generator's expression for a draft boolean expression; `exprAsBool e` becomes `e != 0`. */
  function BoolToAst(b: BoolExpr): Ast.Expression {
    match b
    case BoolLit(v) => Ast.Literal(Bool(v))
    case BoolGroup(inner) => Ast.Group(BoolToAst(inner))
    case Comparison(l, op, r) => Ast.BinExpr(ToAst(l), ComparisonOperator(op), ToAst(r))
    case Bin(l, op, r) => Ast.BinExpr(BoolToAst(l), if op == Or then "||" else "&&", BoolToAst(r))
    case ExprAsBool(e) => Ast.BinExpr(ToAst(e), "!=", Ast.Literal(Num(0)))
  }

  /** The interpreter and the generator's folding agree on integer expressions:
      one succeeds exactly when the other does, with the same value. */
  lemma {:induction false} EvalExprAgreesWithGenerator(e: Expr, values: map<string, Value>)
    ensures EvalExpr(e, values).Ok? <==> Generator.Eval(ToAst(e), values).Ok?
    ensures EvalExpr(e, values).Ok? ==> Generator.Eval(ToAst(e), values) == EvalExpr(e, values)
  {
    match e
    case Lit(_) =>
    case RefExpr(_) =>
    case Add(l, r) =>
      EvalExprAgreesWithGenerator(l, values);
      EvalExprAgreesWithGenerator(r, values);
    case Mult(l, r) =>
      EvalExprAgreesWithGenerator(l, values);
      EvalExprAgreesWithGenerator(r, values);
    case GroupExpr(inner) =>
      EvalExprAgreesWithGenerator(inner, values);
    case Neg(inner) =>
      EvalExprAgreesWithGenerator(inner, values);
  }

  /** On boolean expressions the generator folds to 1 where the interpreter
      yields true and to 0 where it yields false. */
  lemma {:induction false} EvalBoolAgreesWithGenerator(b: BoolExpr, values: map<string, Value>)
    ensures EvalBool(b, values).Ok? <==> Generator.Eval(BoolToAst(b), values).Ok?
    ensures EvalBool(b, values).Ok? && b.BoolLit? ==> Generator.Eval(BoolToAst(b), values) == Ok(Bool(b.value))
    ensures EvalBool(b, values).Ok? && !b.BoolLit? && !b.BoolGroup? ==>
      Generator.Eval(BoolToAst(b), values) == Ok(Generator.Flag(EvalBool(b, values).value))
    ensures EvalBool(b, values).Ok? ==>
      Truthy(Generator.Eval(BoolToAst(b), values).value) == EvalBool(b, values).value
  {
    match b
    case BoolLit(_) =>
    case BoolGroup(inner) =>
      EvalBoolAgreesWithGenerator(inner, values);
    case Comparison(l, op, r) =>
      EvalExprAgreesWithGenerator(l, values);
      EvalExprAgreesWithGenerator(r, values);
    case Bin(l, op, r) =>
      EvalBoolAgreesWithGenerator(l, values);
      EvalBoolAgreesWithGenerator(r, values);
    case ExprAsBool(e) =>
      EvalExprAgreesWithGenerator(e, values);
  }

  // ---------------------------------------------------------------------------
  // initializeAttributes

  /** The value `initializeAttributes` gives one attribute: its default,
      evaluated by the evaluator of the declared type, or 0 / false without one. */
  function InitialValue(attribute: Attribute, values: map<string, Value>): Result<Value> {
    match attribute.defaultValue
    case None => Ok(if attribute.attributeType == IntType then Num(0) else Bool(false))
    case Some(node) =>
      match (attribute.attributeType, node)
      case (IntType, IntNode(e)) => EvalExpr(e, values)
      case (BoolType, BoolNode(b)) =>
        var x :- EvalBool(b, values);
        Ok(Bool(x))
      case _ => Err(TypeMismatch)
  }

  /** The env after `initializeAttributes`: attributes in declaration order,
      each default evaluated against the env built so far. */
  function InitializeAttributesOf(attributes: seq<Attribute>, values: map<string, Value>): Result<map<string, Value>>
    decreases |attributes|
  {
    if attributes == [] then Ok(values)
    else
      var v :- InitialValue(attributes[0], values);
      InitializeAttributesOf(attributes[1..], values[attributes[0].name := v])
  }

  /** `initializeAttributes`. */
  method InitializeAttributes(attributes: seq<Attribute>, env: Environment) returns (r: Result<()>)
    modifies env
    ensures InitializeAttributesOf(attributes, old(env.values)).Ok? ==>
      r == Ok(()) && env.values == InitializeAttributesOf(attributes, old(env.values)).value
    ensures InitializeAttributesOf(attributes, old(env.values)).Err? ==>
      r == Err(InitializeAttributesOf(attributes, old(env.values)).error)
  {
    for i := 0 to |attributes|
      invariant InitializeAttributesOf(attributes, old(env.values)) == InitializeAttributesOf(attributes[i..], env.values)
    {
      assert attributes[i..][0] == attributes[i] && attributes[i..][1..] == attributes[i + 1..];
      var v := InitialValue(attributes[i], env.values);
      if v.Err? {
        return Err(v.error);
      }
      env.Set(attributes[i].name, v.value);
    }
    assert attributes[|attributes|..] == [];
    r := Ok(());
  }

  /** A name no attribute declares keeps whatever the env held for it. */
  lemma {:induction false} InitializeAttributesKeepsOtherNames(attributes: seq<Attribute>, values: map<string, Value>, name: string)
    requires InitializeAttributesOf(attributes, values).Ok?
    requires forall j :: 0 <= j < |attributes| ==> attributes[j].name != name
    ensures name in InitializeAttributesOf(attributes, values).value <==> name in values
    ensures name in values ==> InitializeAttributesOf(attributes, values).value[name] == values[name]
    decreases |attributes|
  {
    if attributes != [] {
      var v := InitialValue(attributes[0], values).value;
      InitializeAttributesKeepsOtherNames(attributes[1..], values[attributes[0].name := v], name);
    }
  }

  /** Every attribute ends up bound; one whose name no later attribute reuses
      holds the value computed for it in the env its predecessors left (its
      default evaluated there), and without a default that is 0 for `int` and
      false for `bool`. */
  lemma {:induction false} InitializeAttributesBindsEachAttribute(attributes: seq<Attribute>, values: map<string, Value>, i: nat)
    requires InitializeAttributesOf(attributes, values).Ok?
    requires i < |attributes|
    requires forall j :: i < j < |attributes| ==> attributes[j].name != attributes[i].name
    ensures attributes[i].name in InitializeAttributesOf(attributes, values).value
    ensures InitializeAttributesOf(attributes[..i], values).Ok?
    ensures var before := InitializeAttributesOf(attributes[..i], values).value;
      InitialValue(attributes[i], before).Ok? &&
      InitializeAttributesOf(attributes, values).value[attributes[i].name] == InitialValue(attributes[i], before).value
    ensures attributes[i].defaultValue.None? ==>
      InitializeAttributesOf(attributes, values).value[attributes[i].name]
        == (if attributes[i].attributeType == IntType then Num(0) else Bool(false))
    decreases |attributes|
  {
    var v := InitialValue(attributes[0], values).value;
    var next := values[attributes[0].name := v];
    if i == 0 {
      assert attributes[..0] == [];
      InitializeAttributesKeepsOtherNames(attributes[1..], next, attributes[0].name);
    } else {
      assert attributes[..i][0] == attributes[0] && attributes[..i][1..] == attributes[1..][..i - 1];
      assert InitializeAttributesOf(attributes[..i], values) == InitializeAttributesOf(attributes[1..][..i - 1], next);
      InitializeAttributesBindsEachAttribute(attributes[1..], next, i - 1);
    }
  }

  // ---------------------------------------------------------------------------
  // executeAction

  /** The value of an assignment or print statement: an `Expr` by `evalExpr`,
      a `BoolExpr` by `evalBoolExpr`. */
  function NodeValue(node: Node, values: map<string, Value>): Result<Value> {
    match node
    case IntNode(e) => EvalExpr(e, values)
    case BoolNode(b) =>
      var x :- EvalBool(b, values);
      Ok(Bool(x))
  }

  /** `executeAction`: the env after the action and the values it prints. */
  function ExecuteActionOf(action: Action, values: map<string, Value>): Result<(map<string, Value>, seq<Value>)> {
    var v :- NodeValue(action.value, values);
    match action
    case Assignment(variable, _) => Ok((values[variable := v], []))
    case PrintStatement(_) => Ok((values, [v]))
  }

  /** An assignment stores the value of its expression under the variable and
      prints nothing; a print statement prints that value and changes nothing. */
  lemma ExecuteActionEffect(action: Action, values: map<string, Value>)
    requires NodeValue(action.value, values).Ok?
    ensures ExecuteActionOf(action, values).Ok?
    ensures action.Assignment? ==>
      var (after, printed) := ExecuteActionOf(action, values).value;
      printed == [] && after.Keys == values.Keys + {action.variable} &&
      after[action.variable] == NodeValue(action.value, values).value &&
      forall name :: name in values && name != action.variable ==> after[name] == values[name]
    ensures action.PrintStatement? ==>
      ExecuteActionOf(action, values).value == (values, [NodeValue(action.value, values).value])
  {
  }

  /** `output`, put before what `result` prints. */
  function PrependOutput(output: seq<Value>, result: Result<(map<string, Value>, seq<Value>)>): Result<(map<string, Value>, seq<Value>)> {
    if result.Err? then result else Ok((result.value.0, output + result.value.1))
  }

  /** A transition's actions, in order, each on the env the previous one left. */
  function ExecuteActionsOf(actions: seq<Action>, values: map<string, Value>): Result<(map<string, Value>, seq<Value>)>
    decreases |actions|
  {
    if actions == [] then Ok((values, []))
    else
      var first :- ExecuteActionOf(actions[0], values);
      PrependOutput(first.1, ExecuteActionsOf(actions[1..], first.0))
  }

  /** `executeAction` on the shared env. */
  method ExecuteAction(action: Action, env: Environment) returns (r: Result<seq<Value>>)
    modifies env
    ensures ExecuteActionOf(action, old(env.values)).Ok? ==>
      r == Ok(ExecuteActionOf(action, old(env.values)).value.1) && env.values == ExecuteActionOf(action, old(env.values)).value.0
    ensures ExecuteActionOf(action, old(env.values)).Err? ==>
      r == Err(ExecuteActionOf(action, old(env.values)).error) && env.values == old(env.values)
  {
    var v := NodeValue(action.value, env.values);
    if v.Err? {
      return Err(v.error);
    }
    match action
    case Assignment(variable, _) =>
      env.Set(variable, v.value);
      r := Ok([]);
    case PrintStatement(_) =>
      r := Ok([v.value]);
  }

  /** The `for (const action of transition.actions)` loop of `handleTransition`. */
  method ExecuteActions(actions: seq<Action>, env: Environment) returns (r: Result<seq<Value>>)
    modifies env
    ensures ExecuteActionsOf(actions, old(env.values)).Ok? ==>
      r == Ok(ExecuteActionsOf(actions, old(env.values)).value.1) && env.values == ExecuteActionsOf(actions, old(env.values)).value.0
    ensures ExecuteActionsOf(actions, old(env.values)).Err? ==> r == Err(ExecuteActionsOf(actions, old(env.values)).error)
  {
    var output: seq<Value> := [];
    assert actions[0..] == actions;
    assert PrependOutput([], ExecuteActionsOf(actions, env.values)) == ExecuteActionsOf(actions, env.values) by {
      if ExecuteActionsOf(actions, env.values).Ok? {
        assert [] + ExecuteActionsOf(actions, env.values).value.1 == ExecuteActionsOf(actions, env.values).value.1;
      }
    }
    for i := 0 to |actions|
      invariant ExecuteActionsOf(actions, old(env.values)) == PrependOutput(output, ExecuteActionsOf(actions[i..], env.values))
    {
      assert actions[i..][0] == actions[i] && actions[i..][1..] == actions[i + 1..];
      ghost var before := env.values;
      var printed := ExecuteAction(actions[i], env);
      if printed.Err? {
        return Err(printed.error);
      }
      var rest := ExecuteActionsOf(actions[i + 1..], env.values);
      assert ExecuteActionsOf(actions[i..], before) == PrependOutput(printed.value, rest);
      if rest.Ok? {
        assert output + (printed.value + rest.value.1) == (output + printed.value) + rest.value.1;
      }
      output := output + printed.value;
    }
    assert actions[|actions|..] == [];
    assert output + [] == output;
    r := Ok(output);
  }

  // ---------------------------------------------------------------------------
  // handleTransition

  /** `!transition.guard || evalBoolExpr(transition.guard, env)`. */
  function GuardHolds(guard: Option<BoolExpr>, values: map<string, Value>): Result<bool> {
    match guard
    case None => Ok(true)
    case Some(g) => EvalBool(g, values)
  }

  /** What `handleTransition` leaves behind: the target it returns (None for
      `null`), the env and the values printed by the actions it ran. */
  datatype Handled = Handled(target: Option<string>, values: map<string, Value>, output: seq<Value>)

  function HandleTransitionOf(transitions: seq<Transition>, event: string, values: map<string, Value>): Result<Handled>
    decreases |transitions|
  {
    if transitions == [] then Ok(Handled(None, values, []))
    else
      var t := transitions[0];
      if t.event != event then HandleTransitionOf(transitions[1..], event, values)
      else
        var enabled :- GuardHolds(t.guard, values);
        if enabled then
          var done :- ExecuteActionsOf(t.actions, values);
          Ok(Handled(Some(t.targetState), done.0, done.1))
        else HandleTransitionOf(transitions[1..], event, values)
  }

  /** `handleTransition`: scans the transitions in order and fires the first
      one for the event whose guard is absent or true. */
  method HandleTransition(state: State, event: string, env: Environment) returns (r: Result<(Option<string>, seq<Value>)>)
    modifies env
    ensures HandleTransitionOf(state.transitions, event, old(env.values)).Ok? ==>
      var h := HandleTransitionOf(state.transitions, event, old(env.values)).value;
      r == Ok((h.target, h.output)) && env.values == h.values
    ensures HandleTransitionOf(state.transitions, event, old(env.values)).Err? ==>
      r == Err(HandleTransitionOf(state.transitions, event, old(env.values)).error)
  {
    var transitions := state.transitions;
    assert transitions[0..] == transitions;
    for i := 0 to |transitions|
      invariant env.values == old(env.values)
      invariant HandleTransitionOf(transitions, event, env.values) == HandleTransitionOf(transitions[i..], event, env.values)
    {
      var t := transitions[i];
      assert transitions[i..][0] == t && transitions[i..][1..] == transitions[i + 1..];
      if t.event == event {
        var enabled := GuardHolds(t.guard, env.values);
        if enabled.Err? {
          return Err(enabled.error);
        }
        if enabled.value {
          var printed := ExecuteActions(t.actions, env);
          if printed.Err? {
            return Err(printed.error);
          }
          return Ok((Some(t.targetState), printed.value));
        }
      }
    }
    assert transitions[|transitions|..] == [];
    r := Ok((None, []));
  }

  /** `handleTransition` fires the first transition for the event whose guard
      is absent or true: it runs that transition's actions and returns its
      target, every earlier transition for the event having a false guard. When
      none qualifies it returns null and leaves the env and the output alone. */
  lemma {:induction false} HandleTransitionPicksFirstEnabled(transitions: seq<Transition>, event: string, values: map<string, Value>)
    requires HandleTransitionOf(transitions, event, values).Ok?
    ensures var h := HandleTransitionOf(transitions, event, values).value;
      h.target.Some? ==>
        exists i :: 0 <= i < |transitions| && transitions[i].event == event &&
          GuardHolds(transitions[i].guard, values) == Ok(true) &&
          h.target == Some(transitions[i].targetState) &&
          ExecuteActionsOf(transitions[i].actions, values) == Ok((h.values, h.output)) &&
          forall j :: 0 <= j < i && transitions[j].event == event ==> GuardHolds(transitions[j].guard, values) == Ok(false)
    ensures var h := HandleTransitionOf(transitions, event, values).value;
      h.target.None? ==>
        h.values == values && h.output == [] &&
        forall j :: 0 <= j < |transitions| && transitions[j].event == event ==> GuardHolds(transitions[j].guard, values) == Ok(false)
    decreases |transitions|
  {
    if transitions != [] {
      var t := transitions[0];
      var h := HandleTransitionOf(transitions, event, values).value;
      if t.event != event || GuardHolds(t.guard, values) == Ok(false) {
        HandleTransitionPicksFirstEnabled(transitions[1..], event, values);
        var rest := transitions[1..];
        if h.target.Some? {
          var i :| 0 <= i < |rest| && rest[i].event == event &&
            GuardHolds(rest[i].guard, values) == Ok(true) &&
            h.target == Some(rest[i].targetState) &&
            ExecuteActionsOf(rest[i].actions, values) == Ok((h.values, h.output)) &&
            forall j :: 0 <= j < i && rest[j].event == event ==> GuardHolds(rest[j].guard, values) == Ok(false);
          assert transitions[i + 1] == rest[i];
          forall j | 0 <= j < i + 1 && transitions[j].event == event
            ensures GuardHolds(transitions[j].guard, values) == Ok(false)
          {
            if j > 0 {
              assert transitions[j] == rest[j - 1];
            }
          }
        } else {
          forall j | 0 <= j < |transitions| && transitions[j].event == event
            ensures GuardHolds(transitions[j].guard, values) == Ok(false)
          {
            if j > 0 {
              assert transitions[j] == rest[j - 1];
            }
          }
        }
      } else {
        assert 0 < |transitions| && transitions[0].event == event;
      }
    }
  }

  // ---------------------------------------------------------------------------
  // runStatemachine

  /** The interpreter's state between events: the current state, the env and
      everything printed so far. */
  datatype Configuration = Configuration(state: State, values: map<string, Value>, output: seq<Value>)

  /** Follows a state reference: the first state of that name. */
  function FindState(states: seq<State>, name: string): (r: Result<State>)
    ensures r.Ok? ==> r.value in states && r.value.name == name
    ensures r.Err? <==> forall s <- states :: s.name != name
    decreases |states|
  {
    if states == [] then Err(UnresolvedState(name))
    else if states[0].name == name then Ok(states[0])
    else FindState(states[1..], name)
  }

  /** One iteration of the event loop: handle the event in the current state
      and move to the returned state, if any. */
  function Step(sm: Statemachine, c: Configuration, event: string): Result<Configuration> {
    var h :- HandleTransitionOf(c.state.transitions, event, c.values);
    match h.target
    case None => Ok(Configuration(c.state, h.values, c.output + h.output))
    case Some(name) =>
      var next :- FindState(sm.states, name);
      Ok(Configuration(next, h.values, c.output + h.output))
  }

  function RunEvents(sm: Statemachine, c: Configuration, events: seq<string>): Result<Configuration>
    decreases |events|
  {
    if events == [] then Ok(c)
    else
      var next :- Step(sm, c, events[0]);
      RunEvents(sm, next, events[1..])
  }

  /** The configuration before the first event: attributes initialised, in the initial state. */
  function Start(sm: Statemachine): Result<Configuration> {
    var values :- InitializeAttributesOf(sm.attributes, map[]);
    var initial :- FindState(sm.states, sm.initialState);
    Ok(Configuration(initial, values, []))
  }

  /** `runStatemachine`, observed through its final configuration. */
  function Run(sm: Statemachine, events: seq<string>): Result<Configuration> {
    var c :- Start(sm);
    RunEvents(sm, c, events)
  }

  /** `runStatemachine`. */
  method RunStatemachine(sm: Statemachine, events: seq<string>) returns (r: Result<Configuration>)
    ensures r == Run(sm, events)
  {
    var env := new Environment();
    var initialised := InitializeAttributes(sm.attributes, env);
    if initialised.Err? {
      return Err(initialised.error);
    }
    var found := FindState(sm.states, sm.initialState);
    if found.Err? {
      return Err(found.error);
    }
    var current := found.value;
    var output: seq<Value> := [];
    assert events[0..] == events;
    for i := 0 to |events|
      invariant Run(sm, events) == RunEvents(sm, Configuration(current, env.values, output), events[i..])
    {
      assert events[i..][0] == events[i] && events[i..][1..] == events[i + 1..];
      var handled := HandleTransition(current, events[i], env);
      if handled.Err? {
        return Err(handled.error);
      }
      output := output + handled.value.1;
      if handled.value.0.Some? {
        var next := FindState(sm.states, handled.value.0.value);
        if next.Err? {
          return Err(next.error);
        }
        current := next.value;
      }
    }
    assert events[|events|..] == [];
    r := Ok(Configuration(current, env.values, output));
  }

  /** Events are consumed in order: running a longer sequence is running the
      shorter one, then one more step. */
  lemma {:induction false} RunEventsAppend(sm: Statemachine, c: Configuration, events: seq<string>, event: string)
    ensures RunEvents(sm, c, events + [event]) ==
      (if RunEvents(sm, c, events).Err? then RunEvents(sm, c, events)
       else Step(sm, RunEvents(sm, c, events).value, event))
    decreases |events|
  {
    if events == [] {
      assert [] + [event] == [event];
      assert [event][1..] == [];
    } else {
      assert (events + [event])[0] == events[0];
      assert (events + [event])[1..] == events[1..] + [event];
      if Step(sm, c, events[0]).Ok? {
        RunEventsAppend(sm, Step(sm, c, events[0]).value, events[1..], event);
      }
    }
  }

  /** An event no transition of the current state accepts (or whose guards all
      fail) changes neither the state nor the env nor the output. */
  lemma UnhandledEventKeepsConfiguration(sm: Statemachine, c: Configuration, event: string)
    requires forall t <- c.state.transitions :: t.event != event
    ensures Step(sm, c, event) == Ok(c)
  {
    NoMatchingTransition(c.state.transitions, event, c.values);
    assert c.output + [] == c.output;
  }

  lemma {:induction false} NoMatchingTransition(transitions: seq<Transition>, event: string, values: map<string, Value>)
    requires forall t <- transitions :: t.event != event
    ensures HandleTransitionOf(transitions, event, values) == Ok(Handled(None, values, []))
    decreases |transitions|
  {
    if transitions != [] {
      NoMatchingTransition(transitions[1..], event, values);
    }
  }

  // ---------------------------------------------------------------------------
  // executeAction as written

  /** Which branch of `executeAction` an action takes. */
  datatype ActionBranch = AssignBranch | PrintBranch | NoBranch

  /** The properties a draft action object carries: an assignment has
      `variable` and `value`, a print statement only `value`. */
  function ActionKeys(action: Action): (r: set<string>)
    ensures "value" in r
    ensures "variable" in r <==> action.Assignment?
  {
    match action
    case Assignment(_, _) => {"variable", "value"}
    case PrintStatement(_) => {"value"}
  }

  /** The branch `executeAction` takes as written: `'variable' in action`, else
      `'print' in action`, else nothing. */
  function ExecuteActionBranchAsWritten(action: Action): ActionBranch {
    if "variable" in ActionKeys(action) then AssignBranch
    else if "print" in ActionKeys(action) then PrintBranch
    else NoBranch
  }

  /** As written, no action reaches the print branch: a print statement has no
      `print` property, so it does nothing at all. */
  lemma PrintStatementSkippedAsWritten(action: Action)
    ensures ExecuteActionBranchAsWritten(action) != PrintBranch
    ensures action.PrintStatement? ==> ExecuteActionBranchAsWritten(action) == NoBranch
  {
    assert "print" !in ActionKeys(action) by {
      assert "print" != "variable" && "print" != "value";
    }
  }

  /** The value `executeAction` computes as written. Every draft node has a
      `type` tag, so `(action.value as BoolExpr).type` always holds and
      `evalBoolExpr` runs on `Expr` nodes as well; None is `undefined`. */
  function ActionValueAsWritten(node: Node, values: map<string, Value>): Result<Option<Value>> {
    match node
    case BoolNode(b) =>
      var x :- EvalBool(b, values);
      Ok(Some(Bool(x)))
    case IntNode(e) => Ok(ExprThroughBoolSwitch(e))
  }

  /** `evalBoolExpr` applied to an `Expr`: of the `Expr` tags only `group`
      matches one of its cases; every other tag falls out of the switch. */
  function ExprThroughBoolSwitch(e: Expr): Option<Value> {
    match e
    case GroupExpr(inner) => ExprThroughBoolSwitch(inner)
    case _ => None
  }

  /** As written, every arithmetic assignment stores `undefined`. */
  lemma {:induction false} ExprValueLostAsWritten(e: Expr, values: map<string, Value>)
    ensures ActionValueAsWritten(IntNode(e), values) == Ok(None)
  {
    match e
    case GroupExpr(inner) => ExprValueLostAsWritten(inner, values);
    case _ =>
  }

  /** On boolean nodes the code as written and the corrected `NodeValue` agree. */
  lemma BoolValueKeptAsWritten(b: BoolExpr, values: map<string, Value>)
    ensures ActionValueAsWritten(BoolNode(b), values).Ok? <==> NodeValue(BoolNode(b), values).Ok?
    ensures NodeValue(BoolNode(b), values).Ok? ==>
      ActionValueAsWritten(BoolNode(b), values).value == Some(NodeValue(BoolNode(b), values).value)
  {
  }

  /** `count = count + 1` of the GuardedSwitch machine with count at 0: the
      code as written stores `undefined`, the corrected action stores 1. */
  lemma IncrementLostAsWritten()
    ensures ActionValueAsWritten(IntNode(Add(RefExpr("count"), Lit(1))), map["count" := Num(0)]) == Ok(None)
    ensures NodeValue(IntNode(Add(RefExpr("count"), Lit(1))), map["count" := Num(0)]) == Ok(Num(1))
  {
    ExprValueLostAsWritten(Add(RefExpr("count"), Lit(1)), map["count" := Num(0)]);
  }

  // ---------------------------------------------------------------------------
  // The interpreter test machines

  function SwitchAttributes(): seq<Attribute> {
    [ Attribute("count", IntType, Some(IntNode(Lit(0)))),
      Attribute("isOn", BoolType, Some(BoolNode(BoolLit(false)))),
      Attribute("isActive", BoolType, Some(BoolNode(BoolLit(true)))) ]
  }

  function ResetTransition(): Transition {
    Transition("reset", None, "Off",
      [ Assignment("isOn", BoolNode(BoolLit(false))),
        Assignment("count", IntNode(Lit(0))),
        Assignment("isActive", BoolNode(BoolLit(false))) ])
  }

  function GuardedOff(): State {
    State("Off", [Transition("toggle", Some(Comparison(RefExpr("count"), Lt, Lit(3))), "On",
      [ Assignment("isOn", BoolNode(BoolLit(true))),
        Assignment("count", IntNode(Add(RefExpr("count"), Lit(1)))) ])])
  }

  function GuardedOn(): State {
    State("On", [
      Transition("toggle", None, "Off",
        [ Assignment("isOn", BoolNode(BoolLit(false))),
          Assignment("count", IntNode(Mult(RefExpr("count"), Lit(2)))) ]),
      ResetTransition() ])
  }

  /** The GuardedSwitch machine: `toggle when (count < 3)` from Off. */
  function GuardedSwitch(): Statemachine {
    Statemachine("GuardedSwitch", ["toggle", "reset"], SwitchAttributes(), "Off", [GuardedOff(), GuardedOn()])
  }

  function SwitchValues(count: int, isOn: bool, isActive: bool): map<string, Value> {
    map["count" := Num(count), "isOn" := Bool(isOn), "isActive" := Bool(isActive)]
  }

  lemma SwitchValuesUpdate(count: int, isOn: bool, isActive: bool, count': int, isOn': bool, isActive': bool)
    ensures Lookup(SwitchValues(count, isOn, isActive), "count") == Ok(Num(count))
    ensures Lookup(SwitchValues(count, isOn, isActive), "isOn") == Ok(Bool(isOn))
    ensures SwitchValues(count, isOn, isActive)["count" := Num(count')] == SwitchValues(count', isOn, isActive)
    ensures SwitchValues(count, isOn, isActive)["isOn" := Bool(isOn')] == SwitchValues(count, isOn', isActive)
    ensures SwitchValues(count, isOn, isActive)["isActive" := Bool(isActive')] == SwitchValues(count, isOn, isActive')
  {
    assert |"count"| == 5 && |"isOn"| == 4 && |"isActive"| == 8;
  }

  /** An action that prints nothing hands its env on to the rest. */
  lemma SilentActionThenRest(actions: seq<Action>, values: map<string, Value>, after: map<string, Value>)
    requires actions != [] && ExecuteActionOf(actions[0], values) == Ok((after, []))
    ensures ExecuteActionsOf(actions, values) == ExecuteActionsOf(actions[1..], after)
  {
    var rest := ExecuteActionsOf(actions[1..], after);
    if rest.Ok? {
      assert [] + rest.value.1 == rest.value.1;
    }
  }

  lemma GuardedSwitchStarts()
    ensures Start(GuardedSwitch()) == Ok(Configuration(GuardedOff(), SwitchValues(0, false, true), []))
  {
    var attributes := SwitchAttributes();
    assert InitialValue(attributes[0], map[]) == Ok(Num(0));
    var v1 := map["count" := Num(0)];
    assert InitialValue(attributes[1], v1) == Ok(Bool(false));
    var v2 := v1["isOn" := Bool(false)];
    assert InitialValue(attributes[2], v2) == Ok(Bool(true));
    assert attributes[1..][1..][1..] == [];
    assert InitializeAttributesOf(attributes, map[]) == Ok(SwitchValues(0, false, true));
  }

  /** In Off, toggle fires while count < 3: isOn becomes true, count grows by one. */
  lemma GuardedToggleOn(count: int, isActive: bool)
    requires count < 3
    ensures Step(GuardedSwitch(), Configuration(GuardedOff(), SwitchValues(count, false, isActive), []), "toggle")
      == Ok(Configuration(GuardedOn(), SwitchValues(count + 1, true, isActive), []))
  {
    var values := SwitchValues(count, false, isActive);
    var t := GuardedOff().transitions[0];
    SwitchValuesUpdate(count, false, isActive, count + 1, true, isActive);
    SwitchValuesUpdate(count, true, isActive, count + 1, true, isActive);
    assert GuardHolds(t.guard, values) == Ok(true);
    var a := t.actions;
    var v1 := SwitchValues(count, true, isActive);
    assert ExecuteActionOf(a[0], values) == Ok((v1, []));
    assert a[1] == Assignment("count", IntNode(Add(RefExpr("count"), Lit(1))));
    assert EvalExpr(RefExpr("count"), v1) == Ok(Num(count));
    assert EvalExpr(Lit(1), v1) == Ok(Num(1));
    assert EvalExpr(Add(RefExpr("count"), Lit(1)), v1) == Ok(Num(count + 1));
    assert NodeValue(a[1].value, v1) == Ok(Num(count + 1));
    assert ExecuteActionOf(a[1], v1) == Ok((SwitchValues(count + 1, true, isActive), []));
    assert a[1..][0] == a[1];
    assert a[1..][1..] == [];
    SilentActionThenRest(a, values, v1);
    SilentActionThenRest(a[1..], v1, SwitchValues(count + 1, true, isActive));
  }

  /** In On, toggle fires unguarded: isOn becomes false, count doubles. */
  lemma GuardedToggleOff(count: int, isActive: bool)
    ensures Step(GuardedSwitch(), Configuration(GuardedOn(), SwitchValues(count, true, isActive), []), "toggle")
      == Ok(Configuration(GuardedOff(), SwitchValues(count * 2, false, isActive), []))
  {
    var values := SwitchValues(count, true, isActive);
    var t := GuardedOn().transitions[0];
    SwitchValuesUpdate(count, true, isActive, count * 2, false, isActive);
    SwitchValuesUpdate(count, false, isActive, count * 2, false, isActive);
    var a := t.actions;
    var v1 := SwitchValues(count, false, isActive);
    assert ExecuteActionOf(a[0], values) == Ok((v1, []));
    assert a[1] == Assignment("count", IntNode(Mult(RefExpr("count"), Lit(2))));
    assert EvalExpr(RefExpr("count"), v1) == Ok(Num(count));
    assert EvalExpr(Lit(2), v1) == Ok(Num(2));
    assert EvalExpr(Mult(RefExpr("count"), Lit(2)), v1) == Ok(Num(count * 2));
    assert NodeValue(a[1].value, v1) == Ok(Num(count * 2));
    assert ExecuteActionOf(a[1], v1) == Ok((SwitchValues(count * 2, false, isActive), []));
    assert a[1..][0] == a[1];
    assert a[1..][1..] == [];
    SilentActionThenRest(a, values, v1);
    SilentActionThenRest(a[1..], v1, SwitchValues(count * 2, false, isActive));
  }

  /** Once count reaches 3 the guard fails and toggle leaves everything as it is. */
  lemma GuardedToggleBlocked(count: int, isActive: bool)
    requires count >= 3
    ensures Step(GuardedSwitch(), Configuration(GuardedOff(), SwitchValues(count, false, isActive), []), "toggle")
      == Ok(Configuration(GuardedOff(), SwitchValues(count, false, isActive), []))
  {
    var values := SwitchValues(count, false, isActive);
    SwitchValuesUpdate(count, false, isActive, count, false, isActive);
    assert GuardHolds(GuardedOff().transitions[0].guard, values) == Ok(false);
    assert GuardedOff().transitions[1..] == [];
    assert HandleTransitionOf(GuardedOff().transitions, "toggle", values) == Ok(Handled(None, values, []));
    var none: seq<Value> := [];
    assert none + none == none;
  }

  /** Two toggles from Off while count < 3 come back to Off with count
      doubled after the increment. */
  lemma GuardedToggleTwice(count: int, isActive: bool, events: seq<string>)
    requires count < 3
    ensures RunEvents(GuardedSwitch(), Configuration(GuardedOff(), SwitchValues(count, false, isActive), []), ["toggle", "toggle"] + events)
      == RunEvents(GuardedSwitch(), Configuration(GuardedOff(), SwitchValues((count + 1) * 2, false, isActive), []), events)
  {
    var sm := GuardedSwitch();
    var c0 := Configuration(GuardedOff(), SwitchValues(count, false, isActive), []);
    var c1 := Configuration(GuardedOn(), SwitchValues(count + 1, true, isActive), []);
    var c2 := Configuration(GuardedOff(), SwitchValues((count + 1) * 2, false, isActive), []);
    GuardedToggleOn(count, isActive);
    GuardedToggleOff(count + 1, isActive);
    StepThenRun(sm, c1, c2, "toggle", events);
    StepThenRun(sm, c0, c1, "toggle", ["toggle"] + events);
    assert ["toggle"] + (["toggle"] + events) == ["toggle", "toggle"] + events;
  }

  /** Four toggles of GuardedSwitch: Off, On, Off, On, Off, with count 0, 1, 2,
      3, 6; isActive stays true and nothing is printed. */
  lemma GuardedSwitchRun()
    ensures Run(GuardedSwitch(), ["toggle", "toggle", "toggle", "toggle"])
      == Ok(Configuration(GuardedOff(), SwitchValues(6, false, true), []))
  {
    var sm := GuardedSwitch();
    GuardedSwitchStarts();
    GuardedToggleTwice(2, true, []);
    GuardedToggleTwice(0, true, ["toggle", "toggle"]);
    assert ["toggle", "toggle"] + ["toggle", "toggle"] == ["toggle", "toggle", "toggle", "toggle"];
    assert ["toggle", "toggle"] + [] == ["toggle", "toggle"];
  }

  /** A fifth toggle finds count at 6 and the guard false: still Off. */
  lemma GuardedSwitchSaturates()
    ensures Run(GuardedSwitch(), ["toggle", "toggle", "toggle", "toggle", "toggle"])
      == Ok(Configuration(GuardedOff(), SwitchValues(6, false, true), []))
  {
    GuardedSwitchRun();
    GuardedToggleBlocked(6, true);
    var events := ["toggle", "toggle", "toggle", "toggle"];
    assert events + ["toggle"] == ["toggle", "toggle", "toggle", "toggle", "toggle"];
    var c := Start(GuardedSwitch()).value;
    RunEventsAppend(GuardedSwitch(), c, events, "toggle");
  }

  function ComplexOff(): State {
    State("Off", [Transition("toggle", None, "On",
      [ Assignment("isOn", BoolNode(BoolLit(true))),
        Assignment("count", IntNode(Add(RefExpr("count"), Lit(1)))),
        Assignment("isActive", BoolNode(Bin(ExprAsBool(RefExpr("isOn")), And,
          BoolGroup(Comparison(RefExpr("count"), Gt, Lit(0)))))) ])])
  }

  function ComplexOn(): State {
    State("On", [
      Transition("toggle", None, "Off",
        [ Assignment("isOn", BoolNode(BoolLit(false))),
          Assignment("count", IntNode(Mult(RefExpr("count"), Lit(2)))),
          Assignment("isActive", BoolNode(Bin(ExprAsBool(RefExpr("isOn")), Or,
            BoolGroup(Comparison(RefExpr("count"), Lt, Lit(5)))))) ]),
      ResetTransition() ])
  }

  /** The ComplexLogicSwitch machine: like GuardedSwitch without the guard,
      and toggles also recompute isActive. */
  function ComplexLogicSwitch(): Statemachine {
    Statemachine("ComplexLogicSwitch", ["toggle", "reset"], SwitchAttributes(), "Off", [ComplexOff(), ComplexOn()])
  }

  lemma ComplexToggleOn()
    ensures Step(ComplexLogicSwitch(), Configuration(ComplexOff(), SwitchValues(0, false, true), []), "toggle")
      == Ok(Configuration(ComplexOn(), SwitchValues(1, true, true), []))
  {
    var values := SwitchValues(0, false, true);
    var a := ComplexOff().transitions[0].actions;
    SwitchValuesUpdate(0, false, true, 1, true, true);
    SwitchValuesUpdate(0, true, true, 1, true, true);
    SwitchValuesUpdate(1, true, true, 1, true, true);
    var v1 := SwitchValues(0, true, true);
    assert ExecuteActionOf(a[0], values) == Ok((v1, []));
    var v2 := SwitchValues(1, true, true);
    assert ExecuteActionOf(a[1], v1) == Ok((v2, []));
    assert EvalBool(ExprAsBool(RefExpr("isOn")), v2) == Ok(true);
    assert EvalBool(BoolGroup(Comparison(RefExpr("count"), Gt, Lit(0))), v2) == Ok(true);
    assert EvalBool(a[2].value.boolExpr, v2) == Ok(true);
    assert ExecuteActionOf(a[2], v2) == Ok((SwitchValues(1, true, true), []));
    assert a[1..][0] == a[1] && a[1..][1..][0] == a[2];
    assert a[1..][1..][1..] == [];
    SilentActionThenRest(a, values, v1);
    SilentActionThenRest(a[1..], v1, v2);
    SilentActionThenRest(a[1..][1..], v2, SwitchValues(1, true, true));
  }

  lemma ComplexToggleOff()
    ensures Step(ComplexLogicSwitch(), Configuration(ComplexOn(), SwitchValues(1, true, true), []), "toggle")
      == Ok(Configuration(ComplexOff(), SwitchValues(2, false, true), []))
  {
    var values := SwitchValues(1, true, true);
    var a := ComplexOn().transitions[0].actions;
    SwitchValuesUpdate(1, true, true, 2, false, true);
    SwitchValuesUpdate(1, false, true, 2, false, true);
    SwitchValuesUpdate(2, false, true, 2, false, true);
    var v1 := SwitchValues(1, false, true);
    assert ExecuteActionOf(a[0], values) == Ok((v1, []));
    var v2 := SwitchValues(2, false, true);
    assert ExecuteActionOf(a[1], v1) == Ok((v2, []));
    assert EvalBool(ExprAsBool(RefExpr("isOn")), v2) == Ok(true);
    assert EvalBool(BoolGroup(Comparison(RefExpr("count"), Lt, Lit(5))), v2) == Ok(true);
    assert EvalBool(a[2].value.boolExpr, v2) == Ok(true);
    assert ExecuteActionOf(a[2], v2) == Ok((SwitchValues(2, false, true), []));
    assert a[1..][0] == a[1] && a[1..][1..][0] == a[2];
    assert a[1..][1..][1..] == [];
    SilentActionThenRest(a, values, v1);
    SilentActionThenRest(a[1..], v1, v2);
    SilentActionThenRest(a[1..][1..], v2, SwitchValues(2, false, true));
  }

  /** toggle, toggle, reset on ComplexLogicSwitch: back in Off with count 2,
      isOn false and isActive true; reset has no transition out of Off. */
  lemma ComplexLogicSwitchRun()
    ensures Run(ComplexLogicSwitch(), ["toggle", "toggle", "reset"])
      == Ok(Configuration(ComplexOff(), SwitchValues(2, false, true), []))
  {
    var sm := ComplexLogicSwitch();
    var c0 := Configuration(ComplexOff(), SwitchValues(0, false, true), []);
    var c1 := Configuration(ComplexOn(), SwitchValues(1, true, true), []);
    var c2 := Configuration(ComplexOff(), SwitchValues(2, false, true), []);
    assert Start(sm) == Ok(c0) by {
      GuardedSwitchStarts();
      assert InitializeAttributesOf(sm.attributes, map[]) == InitializeAttributesOf(GuardedSwitch().attributes, map[]);
    }
    ComplexToggleOn();
    ComplexToggleOff();
    UnhandledEventKeepsConfiguration(sm, c2, "reset");
    StepThenRun(sm, c2, c2, "reset", []);
    StepThenRun(sm, c1, c2, "toggle", ["reset"]);
    StepThenRun(sm, c0, c1, "toggle", ["toggle", "reset"]);
  }

  lemma StepThenRun(sm: Statemachine, c: Configuration, next: Configuration, event: string, events: seq<string>)
    requires Step(sm, c, event) == Ok(next)
    ensures RunEvents(sm, c, [event] + events) == RunEvents(sm, next, events)
  {
    assert ([event] + events)[0] == event && ([event] + events)[1..] == events;
  }
}
