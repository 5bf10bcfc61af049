/** The statemachine language's validator: the capital-letter warning on
    state names, duplicate detection across the shared namespace of states,
    events and attributes, the attribute-type checks and the registry that
    decides which checks run. `accept` is modelled as appending to the
    sequence of diagnostics a check returns. */
module Validator {
  import opened Ast
  import Results
  import Values

  datatype Severity = Warning | Error

  /** A node a diagnostic can point at: the symbols of the shared namespace. */
  datatype Symbol = StateSymbol(state: State) | EventSymbol(event: Event) | AttributeSymbol(attribute: Attribute)

  datatype Diagnostic = Diagnostic(severity: Severity, message: string, node: Symbol, property: string)

  function NameOf(s: Symbol): string {
    match s
    case StateSymbol(st) => st.name
    case EventSymbol(e) => e.name
    case AttributeSymbol(a) => a.name
  }

  // ---------------------------------------------------------------------------
  // checkStateNameStartsWithCapital

  /** `toUpperCase` on one character, for the ASCII letters. */
  function ToUpper(c: char): (u: char)
    ensures 'a' <= c <= 'z' ==> 'A' <= u <= 'Z' && u as int == c as int - 32
    ensures !('a' <= c <= 'z') ==> u == c
  {
    if 'a' <= c <= 'z' then (c as int - 32) as char else c
  }

  const CapitalWarning := "State name should start with a capital letter."

  /** `checkStateNameStartsWithCapital`: one warning on `name` when the first
      character changes under `toUpperCase`; none for an empty name. */
  function CheckStateName(state: State): (r: seq<Diagnostic>)
    ensures |r| <= 1
    ensures |r| == 1 <==> |state.name| > 0 && 'a' <= state.name[0] <= 'z'
    ensures forall d <- r :: d == Diagnostic(Warning, CapitalWarning, StateSymbol(state), "name")
  {
    if |state.name| > 0 && ToUpper(state.name[0]) != state.name[0]
    then [Diagnostic(Warning, CapitalWarning, StateSymbol(state), "name")]
    else []
  }

  // ---------------------------------------------------------------------------
  // checkUniqueStatesEventsAndAttributes

  /** `[...statemachine.states, ...statemachine.events, ...statemachine.attributes]`. */
  function AllSymbols(sm: Statemachine): (r: seq<Symbol>)
    ensures |r| == |sm.states| + |sm.events| + |sm.attributes|
    ensures forall i :: 0 <= i < |sm.states| ==> r[i] == StateSymbol(sm.states[i])
    ensures forall i :: 0 <= i < |sm.events| ==> r[|sm.states| + i] == EventSymbol(sm.events[i])
    ensures forall i :: 0 <= i < |sm.attributes| ==> r[|sm.states| + |sm.events| + i] == AttributeSymbol(sm.attributes[i])
  {
    seq(|sm.states|, i requires 0 <= i < |sm.states| => StateSymbol(sm.states[i]))
    + seq(|sm.events|, i requires 0 <= i < |sm.events| => EventSymbol(sm.events[i]))
    + seq(|sm.attributes|, i requires 0 <= i < |sm.attributes| => AttributeSymbol(sm.attributes[i]))
  }

  /** The symbols named `name`, in order: what the multimap holds under that key. */
  function Group(symbols: seq<Symbol>, name: string): (r: seq<Symbol>)
    ensures |r| <= |symbols|
    ensures forall s <- r :: NameOf(s) == name && s in symbols
    decreases |symbols|
  {
    if symbols == [] then []
    else
      var last := symbols[|symbols| - 1];
      Group(symbols[..|symbols| - 1], name) + (if NameOf(last) == name then [last] else [])
  }

  /** The keys of the multimap in insertion order: the non-empty names, each
      at its first occurrence. */
  function Keys(symbols: seq<Symbol>): (r: seq<string>)
    ensures forall k <- r :: k != ""
    decreases |symbols|
  {
    if symbols == [] then []
    else
      var keys := Keys(symbols[..|symbols| - 1]);
      var name := NameOf(symbols[|symbols| - 1]);
      if name == "" || name in keys then keys else keys + [name]
  }

  function DuplicateError(s: Symbol): Diagnostic {
    Diagnostic(Error, "Duplicate identifier name: " + NameOf(s), s, "name")
  }

  function DuplicateErrors(group: seq<Symbol>): (r: seq<Diagnostic>)
    ensures |r| == |group|
    decreases |group|
  {
    if group == [] then [] else [DuplicateError(group[0])] + DuplicateErrors(group[1..])
  }

  /** The errors for one key of `entriesGroupedByKey`: one per symbol when the
      key has more than one. */
  function ReportKey(symbols: seq<Symbol>, key: string): seq<Diagnostic> {
    var group := Group(symbols, key);
    if |group| > 1 then DuplicateErrors(group) else []
  }

  function ReportKeys(symbols: seq<Symbol>, keys: seq<string>): seq<Diagnostic>
    decreases |keys|
  {
    if keys == [] then [] else ReportKey(symbols, keys[0]) + ReportKeys(symbols, keys[1..])
  }

  /** What `checkUniqueStatesEventsAndAttributes` accepts, in its order. */
  function UniquenessDiagnostics(sm: Statemachine): seq<Diagnostic> {
    var symbols := AllSymbols(sm);
    ReportKeys(symbols, Keys(symbols))
  }

  /** `checkUniqueStatesEventsAndAttributes`: fills a multimap from names to
      symbols, then reports every symbol of each key with several. */
  method CheckUniqueStatesEventsAndAttributes(sm: Statemachine) returns (diagnostics: seq<Diagnostic>)
    ensures diagnostics == UniquenessDiagnostics(sm)
  {
    var symbols := AllSymbols(sm);
    var keys, groups := CollectNames(symbols);
    diagnostics := ReportNames(symbols, keys, groups);
  }

  /** The second loop, over `entriesGroupedByKey()` in key order. */
  method ReportNames(symbols: seq<Symbol>, keys: seq<string>, groups: map<string, seq<Symbol>>) returns (diagnostics: seq<Diagnostic>)
    requires forall k <- keys :: k in groups && groups[k] == Group(symbols, k)
    ensures diagnostics == ReportKeys(symbols, keys)
  {
    diagnostics := [];
    for j := 0 to |keys|
      invariant ReportKeys(symbols, keys) == diagnostics + ReportKeys(symbols, keys[j..])
    {
      var key := keys[j];
      assert keys[j..][0] == key;
      var group := groups[key];
      var reported: seq<Diagnostic> := [];
      if |group| > 1 {
        reported := ReportGroup(group);
      }
      ReportKeysStep(symbols, keys[j..], reported);
      assert keys[j..][1..] == keys[j + 1..];
      diagnostics := diagnostics + reported;
    }
    assert keys[|keys|..] == [];
    assert diagnostics + [] == diagnostics;
  }

  lemma ReportKeysStep(symbols: seq<Symbol>, keys: seq<string>, reported: seq<Diagnostic>)
    requires keys != []
    requires reported == (if |Group(symbols, keys[0])| > 1 then DuplicateErrors(Group(symbols, keys[0])) else [])
    ensures ReportKeys(symbols, keys) == reported + ReportKeys(symbols, keys[1..])
  {
  }

  /** The first loop: `names.add(symbol.name, symbol)` for every named symbol.
      The multimap is its key order and its map from key to symbols. */
  method CollectNames(symbols: seq<Symbol>) returns (keys: seq<string>, groups: map<string, seq<Symbol>>)
    ensures keys == Keys(symbols)
    ensures forall k :: k in groups <==> k in keys
    ensures forall k <- keys :: groups[k] == Group(symbols, k)
  {
    keys := [];
    groups := map[];
    for i := 0 to |symbols|
      invariant keys == Keys(symbols[..i])
      invariant forall k :: k in groups <==> k in keys
      invariant forall k <- keys :: groups[k] == Group(symbols[..i], k)
    {
      var symbol := symbols[i];
      CollectStep(symbols, i);
      var name := NameOf(symbol);
      if name != "" {
        if name in groups {
          groups := groups[name := groups[name] + [symbol]];
        } else {
          GroupOfAbsentName(symbols[..i], name);
          groups := groups[name := [symbol]];
          keys := keys + [name];
        }
      }
      forall k | k in keys ensures groups[k] == Group(symbols[..i + 1], k) {
        if k != name {
          assert Group(symbols[..i + 1], k) == Group(symbols[..i], k) + [];
        }
      }
    }
    assert symbols[..|symbols|] == symbols;
  }

  /** Adding one symbol to the multimap: its name becomes a key unless it is
      empty or already one, and only that name's group grows. */
  lemma CollectStep(symbols: seq<Symbol>, i: nat)
    requires i < |symbols|
    ensures var name := NameOf(symbols[i]);
      Keys(symbols[..i + 1]) == if name == "" || name in Keys(symbols[..i]) then Keys(symbols[..i]) else Keys(symbols[..i]) + [name]
    ensures forall k :: Group(symbols[..i + 1], k) == Group(symbols[..i], k) + (if NameOf(symbols[i]) == k then [symbols[i]] else [])
  {
    assert symbols[..i + 1][..i] == symbols[..i] && symbols[..i + 1][i] == symbols[i];
  }

  /** The inner loop: one error per symbol of a repeated key. */
  method ReportGroup(group: seq<Symbol>) returns (reported: seq<Diagnostic>)
    ensures reported == DuplicateErrors(group)
  {
    reported := [];
    for m := 0 to |group|
      invariant DuplicateErrors(group) == reported + DuplicateErrors(group[m..])
    {
      assert group[m..][0] == group[m] && group[m..][1..] == group[m + 1..];
      reported := reported + [DuplicateError(group[m])];
    }
    assert group[|group|..] == [];
    assert reported + [] == reported;
  }

  lemma {:induction false} GroupOfAbsentName(symbols: seq<Symbol>, name: string)
    requires name != "" && name !in Keys(symbols)
    ensures Group(symbols, name) == []
    decreases |symbols|
  {
    if symbols != [] {
      GroupOfAbsentName(symbols[..|symbols| - 1], name);
    }
  }

  /** The multimap keys are exactly the non-empty names, each once. */
  lemma {:induction false} KeysAreTheNames(symbols: seq<Symbol>)
    ensures forall i, j :: 0 <= i < j < |Keys(symbols)| ==> Keys(symbols)[i] != Keys(symbols)[j]
    ensures forall k :: k in Keys(symbols) <==> k != "" && |Group(symbols, k)| > 0
    decreases |symbols|
  {
    if symbols != [] {
      var init := symbols[..|symbols| - 1];
      KeysAreTheNames(init);
      forall k | k != "" && k !in Keys(init)
        ensures Group(init, k) == []
      {
        GroupOfAbsentName(init, k);
      }
    }
  }

  /** The group of a name holds every symbol of that name as often as it occurs. */
  lemma {:induction false} GroupCounts(symbols: seq<Symbol>, name: string, s: Symbol)
    ensures multiset(Group(symbols, name))[s] == if NameOf(s) == name then multiset(symbols)[s] else 0
    decreases |symbols|
  {
    if symbols != [] {
      var init := symbols[..|symbols| - 1];
      GroupCounts(init, name, s);
      assert symbols == init + [symbols[|symbols| - 1]];
    }
  }

  lemma {:induction false} DuplicateErrorsCount(group: seq<Symbol>, s: Symbol)
    ensures multiset(DuplicateErrors(group))[DuplicateError(s)] == multiset(group)[s]
    ensures forall d <- DuplicateErrors(group) :: exists t <- group :: d == DuplicateError(t)
    decreases |group|
  {
    if group != [] {
      DuplicateErrorsCount(group[1..], s);
      assert group == [group[0]] + group[1..];
      forall d <- DuplicateErrors(group)
        ensures exists t <- group :: d == DuplicateError(t)
      {
        if d != DuplicateError(group[0]) {
          assert d in DuplicateErrors(group[1..]);
          var t :| t in group[1..] && d == DuplicateError(t);
          assert t in group;
        }
      }
    }
  }

  lemma {:induction false} ReportKeysCount(symbols: seq<Symbol>, keys: seq<string>, s: Symbol)
    requires forall i, j :: 0 <= i < j < |keys| ==> keys[i] != keys[j]
    ensures multiset(ReportKeys(symbols, keys))[DuplicateError(s)]
      == if NameOf(s) in keys && |Group(symbols, NameOf(s))| > 1 then multiset(symbols)[s] else 0
    ensures forall d <- ReportKeys(symbols, keys) :: exists t <- symbols :: d == DuplicateError(t)
    decreases |keys|
  {
    if keys != [] {
      var rest := keys[1..];
      ReportKeysCount(symbols, rest, s);
      var group := Group(symbols, keys[0]);
      DuplicateErrorsCount(group, s);
      GroupCounts(symbols, keys[0], s);
      assert NameOf(s) in keys <==> NameOf(s) == keys[0] || NameOf(s) in rest;
      assert keys[0] !in rest by {
        forall j | 0 <= j < |rest|
          ensures rest[j] != keys[0]
        {
          assert rest[j] == keys[j + 1];
        }
      }
      forall d <- ReportKeys(symbols, keys)
        ensures exists t <- symbols :: d == DuplicateError(t)
      {
        if d in ReportKey(symbols, keys[0]) {
          var t :| t in group && d == DuplicateError(t);
          assert t in symbols;
        }
      }
    }
  }

  /** Every diagnostic of the uniqueness check is a "Duplicate identifier name"
      error on one of the symbols; a symbol gets one such error per occurrence
      exactly when its name is non-empty and shared with another symbol, and
      none when its name is empty or unique. */
  lemma UniquenessReportsEveryRepeatedName(sm: Statemachine, s: Symbol)
    ensures forall d <- UniquenessDiagnostics(sm) :: exists t <- AllSymbols(sm) :: d == DuplicateError(t)
    ensures multiset(UniquenessDiagnostics(sm))[DuplicateError(s)]
      == if NameOf(s) != "" && |Group(AllSymbols(sm), NameOf(s))| > 1 then multiset(AllSymbols(sm))[s] else 0
  {
    var symbols := AllSymbols(sm);
    KeysAreTheNames(symbols);
    ReportKeysCount(symbols, Keys(symbols), s);
    if NameOf(s) != "" && |Group(symbols, NameOf(s))| > 1 {
      assert NameOf(s) in Keys(symbols);
    }
  }

  /** Two distinct symbols in one sequence make it at least two long. */
  lemma TwoMembers(g: seq<Symbol>, a: Symbol, b: Symbol)
    requires a in g && b in g && a != b
    ensures |g| > 1
  {
  }

  /** States and events share one namespace: a state and an event of the same
      non-empty name both get a duplicate error. */
  lemma StateAndEventClash(sm: Statemachine, i: nat, j: nat)
    requires i < |sm.states| && j < |sm.events|
    requires sm.states[i].name == sm.events[j].name != ""
    ensures DuplicateError(StateSymbol(sm.states[i])) in UniquenessDiagnostics(sm)
    ensures DuplicateError(EventSymbol(sm.events[j])) in UniquenessDiagnostics(sm)
  {
    var symbols := AllSymbols(sm);
    var name := sm.states[i].name;
    var a := StateSymbol(sm.states[i]);
    var b := EventSymbol(sm.events[j]);
    assert symbols[i] == a && symbols[|sm.states| + j] == b;
    GroupCounts(symbols, name, a);
    GroupCounts(symbols, name, b);
    TwoMembers(Group(symbols, name), a, b);
    UniquenessReportsEveryRepeatedName(sm, a);
    UniquenessReportsEveryRepeatedName(sm, b);
  }

  // ---------------------------------------------------------------------------
  // The attribute checks

  /** `${attribute.defaultValue?.$type}`. */
  function DefaultTypeText(defaultValue: Results.Option<Expression>): string {
    match defaultValue
    case None => "undefined"
    case Some(e) => TypeOf(e)
  }

  /** A `Langium` type guard applied to an optional node: false for `undefined`. */
  function Holds(guard: Expression -> bool, defaultValue: Results.Option<Expression>): bool {
    defaultValue.Some? && guard(defaultValue.value)
  }

  /** `checkAttributeType`. `isExpr` is the type guard the validator imports;
      it is not defined in this model, so it is a parameter. */
  function CheckAttributeType(attribute: Attribute, isExpr: Expression -> bool): (r: seq<Diagnostic>)
    ensures |r| <= 1
    ensures forall d <- r :: d.severity == Error && d.node == AttributeSymbol(attribute)
    ensures attribute.typeName != "int" && attribute.typeName != "bool" && attribute.typeName != "" <==>
      r == [Diagnostic(Error, "Unsupported attribute type: " + attribute.typeName, AttributeSymbol(attribute), "type")]
    ensures attribute.typeName == "int" ==> (r != [] <==> !Holds(isExpr, attribute.defaultValue))
    ensures attribute.typeName == "bool" ==> (r != [] <==> Holds(isExpr, attribute.defaultValue))
    ensures attribute.typeName == "" ==> r == []
  {
    var t := attribute.typeName;
    var mismatch := Diagnostic(Error, "Attribute value does not match the type: " + DefaultTypeText(attribute.defaultValue),
      AttributeSymbol(attribute), "defaultValue");
    if t == "" then []
    else if t != "int" && t != "bool" then [Diagnostic(Error, "Unsupported attribute type: " + t, AttributeSymbol(attribute), "type")]
    else if t == "int" then (if !Holds(isExpr, attribute.defaultValue) then [mismatch] else [])
    else if Holds(isExpr, attribute.defaultValue) then [mismatch] else []
  }

  /** `checkAttributeTypeConsistency`; `isExpr` and `isBoolExpr` as above. */
  function CheckAttributeTypeConsistency(attribute: Attribute, isExpr: Expression -> bool, isBoolExpr: Expression -> bool): (r: seq<Diagnostic>)
    ensures |r| <= 1
    ensures forall d <- r :: d.severity == Error && d.node == AttributeSymbol(attribute) && d.property == "defaultValue"
    ensures r != [] <==>
      (attribute.typeName == "bool" && !Holds(isBoolExpr, attribute.defaultValue)) ||
      (attribute.typeName == "int" && !Holds(isExpr, attribute.defaultValue))
  {
    var t := attribute.typeName;
    if t == "bool" && !Holds(isBoolExpr, attribute.defaultValue) then
      [Diagnostic(Error, "The default value must be a boolean.", AttributeSymbol(attribute), "defaultValue")]
    else if t == "int" && !Holds(isExpr, attribute.defaultValue) then
      [Diagnostic(Error, "The default value must be a number.", AttributeSymbol(attribute), "defaultValue")]
    else []
  }

  /** On `int` attributes the two attribute checks agree: each reports exactly
      when the default is missing or not an `Expr`. A missing default is an
      error for both. */
  lemma AttributeChecksAgreeOnInt(attribute: Attribute, isExpr: Expression -> bool, isBoolExpr: Expression -> bool)
    requires attribute.typeName == "int"
    ensures |CheckAttributeType(attribute, isExpr)| == |CheckAttributeTypeConsistency(attribute, isExpr, isBoolExpr)|
    ensures attribute.defaultValue.None? ==> |CheckAttributeType(attribute, isExpr)| == 1
  {
  }

  // ---------------------------------------------------------------------------
  // registerValidationChecks

  datatype Check = CapitalCheck | UniquenessCheck | AttributeTypeCheck | AttributeConsistencyCheck

  /** The checks registered per node type. */
  function RegisteredChecks(nodeType: string): (r: seq<Check>)
    ensures AttributeTypeCheck !in r && AttributeConsistencyCheck !in r
    ensures CapitalCheck in r <==> nodeType == "State"
    ensures UniquenessCheck in r <==> nodeType == "Statemachine"
  {
    if nodeType == "State" then [CapitalCheck]
    else if nodeType == "Statemachine" then [UniquenessCheck]
    else []
  }

  function StateDiagnostics(states: seq<State>): seq<Diagnostic>
    decreases |states|
  {
    if states == [] then [] else CheckStateName(states[0]) + StateDiagnostics(states[1..])
  }

  /** The validator's diagnostics for a document: the registered check of the
      root, then that of each state. Attributes and events have no registered
      check. */
  function Validate(sm: Statemachine): seq<Diagnostic> {
    UniquenessDiagnostics(sm) + StateDiagnostics(sm.states)
  }

  lemma {:induction false} CapitalisedStatesPass(states: seq<State>)
    requires forall s <- states :: |s.name| > 0 && !('a' <= s.name[0] <= 'z')
    ensures StateDiagnostics(states) == []
    decreases |states|
  {
    if states != [] {
      assert states[0] in states;
      CapitalisedStatesPass(states[1..]);
    }
  }

  lemma {:induction false} NoRepeatedNameNoReport(symbols: seq<Symbol>, keys: seq<string>)
    requires forall k :: |Group(symbols, k)| <= 1
    ensures ReportKeys(symbols, keys) == []
    decreases |keys|
  {
    if keys != [] {
      NoRepeatedNameNoReport(symbols, keys[1..]);
      assert |Group(symbols, keys[0])| <= 1;
    }
  }

  /** A machine whose symbols all have distinct names and whose state names
      do not start with a lower-case letter gets no diagnostic. */
  lemma DistinctCapitalisedMachinePasses(sm: Statemachine)
    requires forall i, j :: 0 <= i < j < |AllSymbols(sm)| ==> NameOf(AllSymbols(sm)[i]) != NameOf(AllSymbols(sm)[j])
    requires forall s <- sm.states :: |s.name| > 0 && !('a' <= s.name[0] <= 'z')
    ensures Validate(sm) == []
  {
    var symbols := AllSymbols(sm);
    CapitalisedStatesPass(sm.states);
    forall k
      ensures |Group(symbols, k)| <= 1
    {
      GroupOfDistinctNames(symbols, k);
    }
    NoRepeatedNameNoReport(symbols, Keys(symbols));
  }

  lemma {:induction false} GroupOfUnusedName(symbols: seq<Symbol>, name: string)
    requires forall i :: 0 <= i < |symbols| ==> NameOf(symbols[i]) != name
    ensures Group(symbols, name) == []
    decreases |symbols|
  {
    if symbols != [] {
      GroupOfUnusedName(symbols[..|symbols| - 1], name);
    }
  }

  /** When the names are distinct, no name has more than one symbol. */
  lemma {:induction false} GroupOfDistinctNames(symbols: seq<Symbol>, name: string)
    requires forall i, j :: 0 <= i < j < |symbols| ==> NameOf(symbols[i]) != NameOf(symbols[j])
    ensures |Group(symbols, name)| <= 1
    decreases |symbols|
  {
    if symbols != [] {
      var init := symbols[..|symbols| - 1];
      GroupOfDistinctNames(init, name);
      if NameOf(symbols[|symbols| - 1]) == name {
        forall i | 0 <= i < |init|
          ensures NameOf(init[i]) != name
        {
          assert init[i] == symbols[i];
        }
        GroupOfUnusedName(init, name);
      }
    }
  }

  /** The machine of the validator's first test: events start and stop,
      attributes count and isRunning, states Idle and Running. */
  function TestMachine(): Statemachine {
    Statemachine("TestMachine",
      [Attribute("count", "int", Results.Some(Literal(Values.Num(0)))), Attribute("isRunning", "bool", Results.Some(Literal(Values.Bool(false))))],
      [],
      [Event("start"), Event("stop")],
      "Idle",
      [State("Idle", [], [Transition("start", Results.None, "Running", [])]),
       State("Running", [], [Transition("stop", Results.None, "Idle", [])])])
  }

  /** The valid test machine passes the registered checks without a diagnostic. */
  lemma TestMachinePasses()
    ensures Validate(TestMachine()) == []
  {
    var sm := TestMachine();
    var symbols := AllSymbols(sm);
    assert |symbols| == 6;
    assert NameOf(symbols[0]) == "Idle" && NameOf(symbols[1]) == "Running" && NameOf(symbols[2]) == "start";
    assert NameOf(symbols[3]) == "stop" && NameOf(symbols[4]) == "count" && NameOf(symbols[5]) == "isRunning";
    DistinctCapitalisedMachinePasses(sm);
  }
}
