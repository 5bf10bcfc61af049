/** The abstract syntax of the statemachine language, after parsing and
    cross-reference resolution, and the reflection the language server uses on
    it: the subtype test, the target type of each cross-reference and the
    metadata of each node type (examples/statemachine/src/language-server/generated/ast.ts).

    A cross-reference (`Reference<T>`) is modelled by the referenced
    declaration's name (its `$refText`). */
module Ast {
  import opened Results
  import opened Values

  /** `Expression = BinExpr | PrimaryExpr`, `PrimaryExpr = Group | Literal | NegExpr | Ref`,
      `NegExpr = NegBoolExpr | NegIntExpr`. */
  datatype Expression =
    | BinExpr(e1: Expression, op: string, e2: Expression)
    | Group(ge: Expression)
    | Literal(val: Value)
    | NegBoolExpr(ne: Expression)
    | NegIntExpr(ne: Expression)
    | Ref(name: string)   // the referenced Attribute's name; "" when the reference is unresolved

  /** `PrintValue = Expression | StringLiteral`. */
  datatype PrintValue = ExprValue(expr: Expression) | StringLiteral(value: string)

  datatype PrintStatement = PrintStatement(values: seq<PrintValue>)

  datatype Assignment = Assignment(variable: string, value: Expression)

  /** An Action carries exactly one of an assignment, a command reference or a print statement. */
  datatype Action =
    | AssignmentAction(assignment: Assignment)
    | CommandAction(command: string)
    | PrintAction(printStatement: PrintStatement)

  datatype Attribute = Attribute(name: string, typeName: string, defaultValue: Option<Expression>)

  datatype Event = Event(name: string)

  datatype Command = Command(name: string)

  /** `event` and `state` are the names of the referenced Event and target State. */
  datatype Transition = Transition(event: string, guard: Option<Expression>, state: string, actions: seq<Action>)

  datatype State = State(name: string, actions: seq<Action>, transitions: seq<Transition>)

  /** `init` is the name of the initial State. */
  datatype Statemachine = Statemachine(
    name: string,
    attributes: seq<Attribute>,
    commands: seq<Command>,
    events: seq<Event>,
    init: string,
    states: seq<State>)

  /** The twelve operators `BinExpr.op` admits. */
  const BinOps: set<string> := {"!=", "&&", "*", "+", "-", "/", "<", "<=", "==", ">", ">=", "||"}

  /** The `$type` tag of an expression node. */
  function TypeOf(e: Expression): string {
    match e
    case BinExpr(_, _, _) => "BinExpr"
    case Group(_) => "Group"
    case Literal(_) => "Literal"
    case NegBoolExpr(_) => "NegBoolExpr"
    case NegIntExpr(_) => "NegIntExpr"
    case Ref(_) => "Ref"
  }

  // ---------------------------------------------------------------------------
  // Reflection

  /** `getAllTypes`: every type name of the language, in alphabetical order. */
  function AllTypes(): seq<string> {
    ["Action", "Assignment", "Attribute", "BinExpr", "Command", "Event", "Expression", "Group",
     "Literal", "NegBoolExpr", "NegExpr", "NegIntExpr", "PrimaryExpr", "PrintStatement",
     "PrintValue", "Ref", "State", "Statemachine", "StringLiteral", "Transition"]
  }

  /** The four union types; every other name of `AllTypes` is a node interface. */
  const UnionTypes: set<string> := {"Expression", "NegExpr", "PrimaryExpr", "PrintValue"}

  /** Distance from the root of the union hierarchy; a termination measure. */
  function Depth(t: string): nat {
    if t in {"NegBoolExpr", "NegIntExpr"} then 4
    else if t in {"Group", "Literal", "NegExpr", "Ref"} then 3
    else if t in {"BinExpr", "PrimaryExpr"} then 2
    else if t in {"Expression", "StringLiteral"} then 1
    else 0
  }

  /** `computeIsSubtype`: whether `subtype` is a proper subtype of `supertype`. */
  function ComputeIsSubtype(subtype: string, supertype: string): bool
    decreases Depth(subtype), 0
  {
    if subtype in {"BinExpr", "PrimaryExpr"} then IsSubtype("Expression", supertype)
    else if subtype in {"Expression", "StringLiteral"} then IsSubtype("PrintValue", supertype)
    else if subtype in {"Group", "Literal", "NegExpr", "Ref"} then IsSubtype("PrimaryExpr", supertype)
    else if subtype in {"NegBoolExpr", "NegIntExpr"} then IsSubtype("NegExpr", supertype)
    else false
  }

  /** The library's `isSubtype`: equal, or a proper subtype by `computeIsSubtype`. */
  function IsSubtype(subtype: string, supertype: string): bool
    decreases Depth(subtype), 1
  {
    subtype == supertype || ComputeIsSubtype(subtype, supertype)
  }

  /** Reference table: every type together with all the unions it belongs to,
      read off the `type X = A | B` declarations. */
  function Supertypes(t: string): set<string> {
    if t in {"NegBoolExpr", "NegIntExpr"} then {t, "NegExpr", "PrimaryExpr", "Expression", "PrintValue"}
    else if t in {"Group", "Literal", "NegExpr", "Ref"} then {t, "PrimaryExpr", "Expression", "PrintValue"}
    else if t in {"BinExpr", "PrimaryExpr"} then {t, "Expression", "PrintValue"}
    else if t in {"Expression", "StringLiteral"} then {t, "PrintValue"}
    else {t}
  }

  /** The subtype test is exactly the reflexive-transitive closure the union declarations describe. */
  lemma {:induction false} IsSubtypeMatchesTable(subtype: string, supertype: string)
    ensures IsSubtype(subtype, supertype) <==> supertype in Supertypes(subtype)
    decreases Depth(subtype)
  {
    if subtype in {"BinExpr", "PrimaryExpr"} {
      IsSubtypeMatchesTable("Expression", supertype);
    } else if subtype in {"Expression", "StringLiteral"} {
      IsSubtypeMatchesTable("PrintValue", supertype);
    } else if subtype in {"Group", "Literal", "NegExpr", "Ref"} {
      IsSubtypeMatchesTable("PrimaryExpr", supertype);
    } else if subtype in {"NegBoolExpr", "NegIntExpr"} {
      IsSubtypeMatchesTable("NegExpr", supertype);
    }
  }

  /** No type is its own proper subtype: the hierarchy has no cycle. */
  lemma ComputeIsSubtypeIrreflexive(t: string)
    ensures !ComputeIsSubtype(t, t)
  {
    if t in {"BinExpr", "PrimaryExpr"} {
      IsSubtypeMatchesTable("Expression", t);
    } else if t in {"Expression", "StringLiteral"} {
      IsSubtypeMatchesTable("PrintValue", t);
    } else if t in {"Group", "Literal", "NegExpr", "Ref"} {
      IsSubtypeMatchesTable("PrimaryExpr", t);
    } else if t in {"NegBoolExpr", "NegIntExpr"} {
      IsSubtypeMatchesTable("NegExpr", t);
    }
  }

  lemma IsSubtypeTransitive(a: string, b: string, c: string)
    requires IsSubtype(a, b) && IsSubtype(b, c)
    ensures IsSubtype(a, c)
  {
    IsSubtypeMatchesTable(a, b);
    IsSubtypeMatchesTable(b, c);
    IsSubtypeMatchesTable(a, c);
  }

  lemma IsSubtypeAntisymmetric(a: string, b: string)
    requires IsSubtype(a, b) && IsSubtype(b, a)
    ensures a == b
  {
    IsSubtypeMatchesTable(a, b);
    IsSubtypeMatchesTable(b, a);
  }

  /** Only the ten names of the union declarations have a proper supertype;
      in particular no Statemachine, State, Transition, Action, Attribute,
      Assignment, Command, Event or PrintStatement is ever an Expression. */
  lemma OnlyUnionMembersHaveSupertypes(t: string, s: string)
    ensures ComputeIsSubtype(t, s) ==>
      t in {"BinExpr", "PrimaryExpr", "Expression", "StringLiteral", "Group", "Literal",
            "NegExpr", "Ref", "NegBoolExpr", "NegIntExpr"}
    ensures t in {"Statemachine", "State", "Transition", "Action", "Attribute", "Assignment", "Command", "Event", "PrintStatement"}
      ==> !IsSubtype(t, "Expression") && !IsSubtype(t, "PrintValue")
  {
    IsSubtypeMatchesTable(t, "Expression");
    IsSubtypeMatchesTable(t, "PrintValue");
  }

  /** Every expression node's `$type` is an Expression and a PrintValue. */
  lemma ExpressionNodesAreExpressions(e: Expression)
    ensures TypeOf(e) in NodeTypes
    ensures IsSubtype(TypeOf(e), "Expression") && IsSubtype(TypeOf(e), "PrintValue")
  {
    IsSubtypeMatchesTable(TypeOf(e), "Expression");
    IsSubtypeMatchesTable(TypeOf(e), "PrintValue");
  }

  lemma ProperSupertypesAreUnions(s: string, t: string)
    requires ComputeIsSubtype(s, t)
    ensures t in UnionTypes
  {
    IsSubtypeMatchesTable(s, t);
    if s == t {
      ComputeIsSubtypeIrreflexive(s);
    }
  }

  /** The four union types are exactly the names of `getAllTypes` that some other type is a proper subtype of. */
  lemma UnionTypesAreTheSupertypes(t: string)
    requires t in AllTypes()
    ensures t in UnionTypes <==> exists s :: s in AllTypes() && ComputeIsSubtype(s, t)
  {
    if t in UnionTypes {
      var s := if t == "Expression" then "BinExpr" else if t == "NegExpr" then "NegIntExpr"
               else if t == "PrimaryExpr" then "Ref" else "StringLiteral";
      IsSubtypeMatchesTable(s, t);
      ComputeIsSubtypeIrreflexive(t);
      assert s in AllTypes() && ComputeIsSubtype(s, t);
    } else {
      forall s | s in AllTypes() ensures !ComputeIsSubtype(s, t) {
        if ComputeIsSubtype(s, t) {
          ProperSupertypesAreUnions(s, t);
        }
      }
    }
  }

  /** Supertypes of a type of the language are types of the language. */
  lemma AllTypesClosedUnderSupertypes(t: string, s: string)
    requires t in AllTypes() && IsSubtype(t, s)
    ensures s in AllTypes()
  {
    IsSubtypeMatchesTable(t, s);
  }

  /** `getReferenceType`: the type a cross-reference points to, keyed by
      `<container $type>:<property>`; any other id throws. */
  function GetReferenceType(containerType: string, property: string): Result<string> {
    var referenceId := containerType + ":" + property;
    if referenceId == "Action:command" then Ok("Command")
    else if referenceId == "Assignment:variable" || referenceId == "Ref:val" then Ok("Attribute")
    else if referenceId == "Statemachine:init" || referenceId == "Transition:state" then Ok("State")
    else if referenceId == "Transition:event" then Ok("Event")
    else Err(InvalidReferenceId(referenceId))
  }

  /** Reference table of the cross-reference properties declared as `Reference<T>` in the node interfaces. */
  const ReferenceTargets: map<(string, string), string> := map[
    ("Action", "command") := "Command",
    ("Assignment", "variable") := "Attribute",
    ("Ref", "val") := "Attribute",
    ("Statemachine", "init") := "State",
    ("Transition", "event") := "Event",
    ("Transition", "state") := "State"]

  /** A reference id `<type>:<property>` built from colon-free parts determines both parts. */
  lemma ReferenceIdInjective(c: string, p: string, c0: string, p0: string)
    requires c + ":" + p == c0 + ":" + p0
    requires ':' !in c0 && ':' !in p0
    ensures c == c0 && p == p0
  {
    var id := c0 + ":" + p0;
    assert id[|c|] == ':';
    assert |c| == |c0|;
    assert c == id[..|c|] == c0;
    assert p == id[|c| + 1..] == p0;
  }

  /** `getReferenceType` gives every cross-reference property its declared target type. */
  lemma GetReferenceTypeOnTable(containerType: string, property: string)
    requires (containerType, property) in ReferenceTargets
    ensures GetReferenceType(containerType, property) == Ok(ReferenceTargets[(containerType, property)])
  {
    var id := containerType + ":" + property;
    if (containerType, property) == ("Action", "command") {
      assert id == "Action:command";
    } else if (containerType, property) == ("Assignment", "variable") {
      assert id == "Assignment:variable";
    } else if (containerType, property) == ("Ref", "val") {
      assert id == "Ref:val";
    } else if (containerType, property) == ("Statemachine", "init") {
      assert id == "Statemachine:init";
    } else if (containerType, property) == ("Transition", "event") {
      assert id == "Transition:event";
    } else {
      assert id == "Transition:state";
    }
  }

  /** `getReferenceType` succeeds only on the six cross-reference properties;
      on any other pair it fails naming the id `<type>:<property>`. */
  lemma GetReferenceTypeOnlyOnTable(containerType: string, property: string)
    ensures GetReferenceType(containerType, property).Ok? ==> (containerType, property) in ReferenceTargets
    ensures GetReferenceType(containerType, property).Err? ==>
      GetReferenceType(containerType, property).error == InvalidReferenceId(containerType + ":" + property)
  {
    var id := containerType + ":" + property;
    if id == "Action" + ":" + "command" {
      ReferenceIdInjective(containerType, property, "Action", "command");
    } else if id == "Assignment" + ":" + "variable" {
      ReferenceIdInjective(containerType, property, "Assignment", "variable");
    } else if id == "Ref" + ":" + "val" {
      ReferenceIdInjective(containerType, property, "Ref", "val");
    } else if id == "Statemachine" + ":" + "init" {
      ReferenceIdInjective(containerType, property, "Statemachine", "init");
    } else if id == "Transition" + ":" + "state" {
      ReferenceIdInjective(containerType, property, "Transition", "state");
    } else if id == "Transition" + ":" + "event" {
      ReferenceIdInjective(containerType, property, "Transition", "event");
    }
  }

  // ---------------------------------------------------------------------------
  // Type metadata

  datatype PropertyDefault = EmptyList | FalseValue

  datatype PropertyMeta = PropertyMeta(name: string, defaultValue: Option<PropertyDefault>)

  datatype TypeMetaData = TypeMetaData(name: string, properties: seq<PropertyMeta>)

  function Prop(name: string): PropertyMeta {
    PropertyMeta(name, None)
  }

  function ListProp(name: string): PropertyMeta {
    PropertyMeta(name, Some(EmptyList))
  }

  /** `getTypeMetaData`: the name and the properties (with their defaults) of a node type. */
  function GetTypeMetaData(typeName: string): (r: TypeMetaData)
    ensures r.name == typeName
  {
    if typeName == "Action" then
      TypeMetaData(typeName, [Prop("assignment"), Prop("command"), Prop("print")])
    else if typeName == "Assignment" then
      TypeMetaData(typeName, [Prop("value"), Prop("variable")])
    else if typeName == "Attribute" then
      TypeMetaData(typeName, [Prop("defaultValue"), Prop("name"), Prop("type")])
    else if typeName == "BinExpr" then
      TypeMetaData(typeName, [Prop("e1"), Prop("e2"), Prop("op")])
    else if typeName == "Command" then
      TypeMetaData(typeName, [Prop("name")])
    else if typeName == "Event" then
      TypeMetaData(typeName, [Prop("name")])
    else if typeName == "Group" then
      TypeMetaData(typeName, [Prop("ge")])
    else if typeName == "Literal" then
      TypeMetaData(typeName, [PropertyMeta("val", Some(FalseValue))])
    else if typeName == "NegBoolExpr" then
      TypeMetaData(typeName, [Prop("ne")])
    else if typeName == "NegIntExpr" then
      TypeMetaData(typeName, [Prop("ne")])
    else if typeName == "PrintStatement" then
      TypeMetaData(typeName, [ListProp("values")])
    else if typeName == "Ref" then
      TypeMetaData(typeName, [Prop("val")])
    else if typeName == "State" then
      TypeMetaData(typeName, [ListProp("actions"), Prop("name"), ListProp("transitions")])
    else if typeName == "Statemachine" then
      TypeMetaData(typeName, [ListProp("attributes"), ListProp("commands"), ListProp("events"),
                              Prop("init"), Prop("name"), ListProp("states")])
    else if typeName == "StringLiteral" then
      TypeMetaData(typeName, [Prop("value")])
    else if typeName == "Transition" then
      TypeMetaData(typeName, [ListProp("actions"), Prop("event"), Prop("guard"), Prop("state")])
    else
      TypeMetaData(typeName, [])
  }

  /** The properties declared `Array<...>` in the node interfaces. */
  const ListProperties: set<(string, string)> := {
    ("PrintStatement", "values"), ("State", "actions"), ("State", "transitions"),
    ("Statemachine", "attributes"), ("Statemachine", "commands"), ("Statemachine", "events"),
    ("Statemachine", "states"), ("Transition", "actions")}

  predicate HasProperty(typeName: string, property: string) {
    exists p :: p in GetTypeMetaData(typeName).properties && p.name == property
  }

  /** The node interfaces; each has at least one property. */
  const NodeTypes: set<string> := {
    "Action", "Assignment", "Attribute", "BinExpr", "Command", "Event", "Group", "Literal",
    "NegBoolExpr", "NegIntExpr", "PrintStatement", "Ref", "State", "Statemachine", "StringLiteral", "Transition"}

  /** Union types and unknown names have no properties; every node interface has some. */
  lemma MetaDataEmptyExactlyOffNodeTypes(typeName: string)
    ensures GetTypeMetaData(typeName).properties == [] <==> typeName !in NodeTypes
  {
  }

  /** Metadata names each property once. */
  lemma MetaDataNamesDistinct(typeName: string)
    ensures var ps := GetTypeMetaData(typeName).properties;
      forall i, j :: 0 <= i < j < |ps| ==> ps[i].name != ps[j].name
  {
    var ps := GetTypeMetaData(typeName).properties;
    if typeName == "Statemachine" {
      assert ps == [ListProp("attributes"), ListProp("commands"), ListProp("events"),
                    Prop("init"), Prop("name"), ListProp("states")];
    } else if typeName == "Transition" {
      assert ps == [ListProp("actions"), Prop("event"), Prop("guard"), Prop("state")];
    }
  }

  /** Exactly the list-valued properties default to `[]`, `Literal.val` defaults
      to `false`, and no other property has a default. */
  lemma MetaDataDefaults(typeName: string, i: nat)
    requires i < |GetTypeMetaData(typeName).properties|
    ensures var p := GetTypeMetaData(typeName).properties[i];
      && (p.defaultValue == Some(EmptyList) <==> (typeName, p.name) in ListProperties)
      && (p.defaultValue == Some(FalseValue) <==> (typeName, p.name) == ("Literal", "val"))
  {
  }

  /** Every cross-reference property is a property of its container's metadata,
      and it points to a node interface of the language, never to an Expression. */
  lemma ReferencesAreDeclaredProperties(containerType: string, property: string)
    requires (containerType, property) in ReferenceTargets
    ensures HasProperty(containerType, property)
    ensures var target := ReferenceTargets[(containerType, property)];
      target in NodeTypes && !IsSubtype(target, "Expression")
  {
    assert Prop(property) in GetTypeMetaData(containerType).properties;
    var target := ReferenceTargets[(containerType, property)];
    IsSubtypeMatchesTable(target, "Expression");
  }
}
