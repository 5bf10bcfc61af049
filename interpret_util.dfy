/** The interpreter's helpers: the zero value of an attribute and the check
    that a list of event names only names declared events. */
module InterpretUtil {
  import opened Values
  import Ast
  import Interpreter

  /** `defaultAttributeValue`: false for `bool`, 0 for every other type name. */
  function DefaultAttributeValue(attribute: Ast.Attribute): (r: Value)
    ensures r == Bool(false) <==> attribute.typeName == "bool"
    ensures r == Num(0) <==> attribute.typeName != "bool"
  {
    if attribute.typeName == "bool" then Bool(false) else Num(0)
  }

  /** Where the interpreter draft's `getDefault` answers, it gives the same
      zero value; where it throws (a type other than `int` and `bool`),
      `defaultAttributeValue` falls back to 0. */
  lemma DefaultAttributeValueExtendsGetDefault(attribute: Ast.Attribute)
    ensures Interpreter.GetDefault(attribute.typeName).Ok? ==>
      Interpreter.GetDefault(attribute.typeName).value == DefaultAttributeValue(attribute)
    ensures Interpreter.GetDefault(attribute.typeName).Err? ==> DefaultAttributeValue(attribute) == Num(0)
  {
  }

  /** `model.events.map(event => event.name)`. */
  function EventNames(events: seq<Ast.Event>): (r: seq<string>)
    ensures |r| == |events|
    ensures forall i :: 0 <= i < |events| ==> r[i] == events[i].name
    decreases |events|
  {
    if events == [] then [] else [events[0].name] + EventNames(events[1..])
  }

  /** `eventNames.filter(eventName => !validEventNames.includes(eventName))`. */
  function InvalidEvents(eventNames: seq<string>, valid: seq<string>): seq<string>
    decreases |eventNames|
  {
    if eventNames == [] then []
    else (if eventNames[0] in valid then [] else [eventNames[0]]) + InvalidEvents(eventNames[1..], valid)
  }

  /** `eventsAreValid`: true when no given name is left over by the filter. */
  function EventsAreValid(model: Ast.Statemachine, eventNames: seq<string>): bool {
    |InvalidEvents(eventNames, EventNames(model.events))| == 0
  }

  /** The filter keeps exactly the given names that are not valid. */
  lemma {:induction false} InvalidEventsAreTheUndeclared(eventNames: seq<string>, valid: seq<string>)
    ensures forall n :: n in InvalidEvents(eventNames, valid) <==> n in eventNames && n !in valid
    decreases |eventNames|
  {
    if eventNames != [] {
      InvalidEventsAreTheUndeclared(eventNames[1..], valid);
      assert eventNames == [eventNames[0]] + eventNames[1..];
    }
  }

  predicate Declared(model: Ast.Statemachine, name: string) {
    exists e <- model.events :: e.name == name
  }

  /** `eventsAreValid` holds exactly when every given name is the name of a
      declared event. */
  lemma EventsAreValidIffDeclared(model: Ast.Statemachine, eventNames: seq<string>)
    ensures EventsAreValid(model, eventNames) <==> forall n <- eventNames :: Declared(model, n)
  {
    var valid := EventNames(model.events);
    InvalidEventsAreTheUndeclared(eventNames, valid);
    forall n
      ensures n in valid <==> Declared(model, n)
    {
      if n in valid {
        var i :| 0 <= i < |valid| && valid[i] == n;
        assert model.events[i] in model.events;
      }
      if Declared(model, n) {
        var e :| e in model.events && e.name == n;
        var i :| 0 <= i < |model.events| && model.events[i] == e;
        assert valid[i] == n;
      }
    }
    if !EventsAreValid(model, eventNames) {
      var n := InvalidEvents(eventNames, valid)[0];
      assert n in InvalidEvents(eventNames, valid);
    }
  }

  /** An empty list of event names is always valid. */
  lemma NoEventsAreValid(model: Ast.Statemachine)
    ensures EventsAreValid(model, [])
  {
  }

  /** Only membership matters: two lists naming the same events (in any order,
      with any repetitions) are both valid or both invalid. */
  lemma EventsAreValidDependsOnMembership(model: Ast.Statemachine, names1: seq<string>, names2: seq<string>)
    requires forall n :: n in names1 <==> n in names2
    ensures EventsAreValid(model, names1) == EventsAreValid(model, names2)
  {
    EventsAreValidIffDeclared(model, names1);
    EventsAreValidIffDeclared(model, names2);
  }

  /** Adding one undeclared name anywhere makes the list invalid. */
  lemma UndeclaredEventInvalidates(model: Ast.Statemachine, before: seq<string>, name: string, after: seq<string>)
    requires !Declared(model, name)
    ensures !EventsAreValid(model, before + [name] + after)
  {
    EventsAreValidIffDeclared(model, before + [name] + after);
    assert (before + [name] + after)[|before|] == name;
  }
}
