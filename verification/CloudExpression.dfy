// CloudFormation property expressions: the collector of explicit references, the
// meaning of the supported intrinsic functions, and what that meaning depends on.
module CloudExpression {
  import opened Options
  import opened PairOrder
  import opened Texts

  datatype Json =
    | Null
    | Bool(flag: bool)
    | Number(value: int)
    | Text(text: string)
    | List(items: seq<Json>)
    | Object(fields: map<string, Json>)

  /******* Texts *******/

  // text.split(".", 1), when there is a dot.
  function SplitDot(text: string): Option<Pair> {
    if text == "" then None
    else if text[0] == '.' then Some(("", text[1..]))
    else
      match SplitDot(text[1..])
      case None => None
      case Some((head, tail)) => Some(([text[0]] + head, tail))
  }

  // The text of Fn::Sub cut at each match of ${name}, name being non-empty and free
  // of closing braces.
  datatype Piece = Letter(c: char) | Variable(name: string)

  function NameEnd(text: string, from: nat): (end: nat)
    requires from <= |text|
    ensures from <= end <= |text|
    decreases |text| - from
  {
    if from == |text| || text[from] == '}' then from else NameEnd(text, from + 1)
  }

  function Pieces(text: string): seq<Piece> {
    if text == "" then []
    else if StartsWith(text, "${") && 2 < NameEnd(text, 2) < |text| then
      [Variable(text[2..NameEnd(text, 2)])] + Pieces(text[NameEnd(text, 2) + 1..])
    else [Letter(text[0])] + Pieces(text[1..])
  }

  /******* The collector *******/

  function GetAttTarget(target: Json): Option<Pair> {
    match target
    case Text(text) => SplitDot(text)
    case List(items) =>
      if |items| == 2 && items[0].Text? && items[1].Text? then Some((items[0].text, items[1].text)) else None
    case _ => None
  }

  function VariablePair(name: string): Pair {
    match SplitDot(name)
    case Some(pair) => pair
    case None => (name, "Ref")
  }

  function SubText(item: Json): Json {
    if item.List? && item.items != [] then item.items[0] else item
  }

  function SubOverrides(item: Json): set<string> {
    if item.List? && |item.items| == 2 && item.items[1].Object? then item.items[1].fields.Keys else {}
  }

  // The references a Fn::Sub text makes by itself.
  function VariableReferences(pieces: seq<Piece>, overrides: set<string>): set<Pair> {
    set p | p in pieces && p.Variable? && !StartsWith(p.name, "!") && p.name !in overrides :: VariablePair(p.name)
  }

  function SubReferences(item: Json): set<Pair> {
    if SubText(item).Text? then VariableReferences(Pieces(SubText(item).text), SubOverrides(item)) else {}
  }

  function DirectReferences(fields: map<string, Json>): set<Pair> {
    (if fields.Keys == {"Fn::GetAtt"} then
       match GetAttTarget(fields["Fn::GetAtt"]) case Some(pair) => {pair} case None => {}
     else if fields.Keys == {"Ref"} && fields["Ref"].Text? then {(fields["Ref"].text, "Ref")}
     else {})
    + (if "Fn::Sub" in fields then SubReferences(fields["Fn::Sub"]) else {})
  }

  // resource_references
  function References(v: Json): set<Pair> {
    match v
    case List(items) => set i, r | 0 <= i < |items| && r in References(items[i]) :: r
    case Object(fields) => DirectReferences(fields) + set k, r | k in fields && r in References(fields[k]) :: r
    case _ => {}
  }

  const SUPPORTED := {"Fn::GetAtt", "Fn::Sub", "Fn::Join", "Fn::If", "Fn::Select", "Fn::Split", "Fn::FindInMap",
                      "Fn::Base64"}

  // external_or_unknown
  predicate ExternalOrUnknown(v: Json) {
    match v
    case List(items) => exists i | 0 <= i < |items| :: ExternalOrUnknown(items[i])
    case Object(fields) =>
      exists k | k in fields :: (StartsWith(k, "Fn::") && k !in SUPPORTED) || ExternalOrUnknown(fields[k])
    case _ => false
  }

  /******* The meaning *******/

  // What a stack gives its expressions: parameters with pseudo-parameters, resource
  // attributes, conditions and mappings.  `compute` is whatever the functions that only
  // compute give for their value and the mappings; `external` answers for every intrinsic
  // outside the supported ones, which may read other stacks or the region.
  datatype Stack = Stack(
    parameters: map<string, Json>,
    attributes: Pair -> Option<Json>,
    condition: string -> bool,
    mappings: Json,
    compute: (string, Json, Json) -> Option<Json>,
    external: (string, Json) -> Option<Json>)

  function Lookup(stack: Stack, pair: Pair): Option<Json> {
    if pair.0 in stack.parameters then
      if pair.1 == "Ref" then Some(stack.parameters[pair.0]) else None
    else stack.attributes(pair)
  }

  // A single-key object whose key is Ref or starts with Fn:: is a function call.
  function IntrinsicOf(fields: map<string, Json>): (name: Option<string>)
    ensures name.Some? ==> fields.Keys == {name.value}
  {
    if |fields.Keys| != 1 then None
    else
      var k := OnlyKey(fields);
      if k == "Ref" || StartsWith(k, "Fn::") then Some(k) else None
  }

  function OnlyKey(fields: map<string, Json>): (key: string)
    requires |fields.Keys| == 1
    ensures fields.Keys == {key}
  {
    SingleKey(fields.Keys);
    var k :| k in fields.Keys && fields.Keys == {k};
    k
  }

  lemma SingleKey(keys: set<string>)
    requires |keys| == 1
    ensures exists k :: k in keys && keys == {k}
  {
    var k :| k in keys;
    assert |keys - {k}| == 0;
    assert keys == {k};
  }

  // The attribute name of Fn::GetAtt is a literal, or the value of a Ref.
  datatype Target = Literal(pair: Pair) | Computed(resource: string, name: string) | Malformed

  function TargetOf(arg: Json): Target {
    match GetAttTarget(arg)
    case Some(pair) => Literal(pair)
    case None =>
      if arg.List? && |arg.items| == 2 && arg.items[0].Text? && arg.items[1].Object?
         && arg.items[1].fields.Keys == {"Ref"} && arg.items[1].fields["Ref"].Text?
      then Computed(arg.items[0].text, arg.items[1].fields["Ref"].text)
      else Malformed
  }

  function ComputedPair(stack: Stack, resource: string, name: string): Option<Pair> {
    match Lookup(stack, (name, "Ref"))
    case Some(Text(attribute)) => Some((resource, attribute))
    case _ => None
  }

  predicate IsChoice(arg: Json) {
    arg.List? && |arg.items| == 3 && arg.items[0].Text?
  }

  predicate IsSub(arg: Json) {
    SubText(arg).Text? && (arg.List? ==> |arg.items| == 2 && arg.items[1].Object?)
  }

  function SubVariables(arg: Json): map<string, Json> {
    if arg.List? && |arg.items| == 2 && arg.items[1].Object? then arg.items[1].fields else map[]
  }

  const BUILTINS := {"Fn::Join", "Fn::Select", "Fn::Split", "Fn::FindInMap", "Fn::Base64"}

  // The value of an expression; nothing when the deployment would fail.
  function Eval(stack: Stack, v: Json): Option<Json>
    decreases v, 0
  {
    match v
    case List(items) =>
      if forall i | 0 <= i < |items| :: Eval(stack, items[i]).Some? then
        Some(List(seq(|items|, i requires 0 <= i < |items| => Eval(stack, items[i]).value)))
      else None
    case Object(fields) =>
      (match IntrinsicOf(fields)
       case Some(name) => EvalCall(stack, name, fields[name])
       case None => EvalFields(stack, fields, v))
    case _ => Some(v)
  }

  function EvalFields(stack: Stack, fields: map<string, Json>, whole: Json): Option<Json>
    requires forall k | k in fields :: fields[k] < whole
    decreases whole, 0, 0
  {
    if forall k | k in fields :: Eval(stack, fields[k]).Some? then
      Some(Object(map k | k in fields :: Eval(stack, fields[k]).value))
    else None
  }

  function EvalCall(stack: Stack, name: string, arg: Json): Option<Json>
    decreases arg, 1
  {
    if name == "Ref" then
      if arg.Text? then Lookup(stack, (arg.text, "Ref")) else None
    else if name == "Fn::GetAtt" then
      match TargetOf(arg)
      case Literal(pair) => Lookup(stack, pair)
      case Computed(resource, x) =>
        (match ComputedPair(stack, resource, x) case Some(pair) => Lookup(stack, pair) case None => None)
      case Malformed => None
    else if name == "Fn::If" then
      if !IsChoice(arg) then None
      else if stack.condition(arg.items[0].text) then Eval(stack, arg.items[1])
      else Eval(stack, arg.items[2])
    else if name == "Fn::Sub" then
      var variables := SubVariables(arg);
      if IsSub(arg) && forall k | k in variables :: Eval(stack, variables[k]).Some? then
        Substitute(stack, Pieces(SubText(arg).text), map k | k in variables :: Eval(stack, variables[k]).value)
      else None
    else if name in BUILTINS then
      match Eval(stack, arg) case Some(value) => stack.compute(name, value, stack.mappings) case None => None
    else stack.external(name, arg)
  }

  function Substitute(stack: Stack, pieces: seq<Piece>, variables: map<string, Json>): Option<Json> {
    if pieces == [] then Some(Text(""))
    else
      var head :=
        match pieces[0]
        case Letter(c) => Some(Text([c]))
        case Variable(name) =>
          if StartsWith(name, "!") then Some(Text("${" + name[1..] + "}"))
          else if name in variables then Some(variables[name])
          else Lookup(stack, VariablePair(name));
      match (head, Substitute(stack, pieces[1..], variables))
      case (Some(Text(a)), Some(Text(b))) => Some(Text(a + b))
      case _ => None
  }

  /******* What the meaning depends on *******/

  // The attributes an expression may look up in a stack, in both branches of a choice.
  function Reads(stack: Stack, v: Json): set<Pair>
    decreases v, 0
  {
    match v
    case List(items) => set i, r | 0 <= i < |items| && r in Reads(stack, items[i]) :: r
    case Object(fields) =>
      (match IntrinsicOf(fields)
       case Some(name) => CallReads(stack, name, fields[name])
       case None => set k, r | k in fields && r in Reads(stack, fields[k]) :: r)
    case _ => {}
  }

  function CallReads(stack: Stack, name: string, arg: Json): set<Pair>
    decreases arg, 1
  {
    if name == "Ref" then
      if arg.Text? then {(arg.text, "Ref")} else {}
    else if name == "Fn::GetAtt" then
      match TargetOf(arg)
      case Literal(pair) => {pair}
      case Computed(resource, x) =>
        {(x, "Ref")} + (match ComputedPair(stack, resource, x) case Some(pair) => {pair} case None => {})
      case Malformed => {}
    else if name == "Fn::If" then
      if IsChoice(arg) then Reads(stack, arg.items[1]) + Reads(stack, arg.items[2]) else {}
    else if name == "Fn::Sub" then
      var variables := SubVariables(arg);
      if IsSub(arg) then
        VariableReferences(Pieces(SubText(arg).text), variables.Keys)
        + set k, r | k in variables && r in Reads(stack, variables[k]) :: r
      else {}
    else if name in BUILTINS then Reads(stack, arg)
    else {}
  }

  // An attribute name is computed only for the resources of a set.
  predicate ComputedOnlyOf(v: Json, stable: set<string>)
    decreases v, 0
  {
    match v
    case List(items) => forall i | 0 <= i < |items| :: ComputedOnlyOf(items[i], stable)
    case Object(fields) =>
      (match IntrinsicOf(fields)
       case Some(name) => CallComputesOnlyOf(name, fields[name], stable)
       case None => forall k | k in fields :: ComputedOnlyOf(fields[k], stable))
    case _ => true
  }

  predicate CallComputesOnlyOf(name: string, arg: Json, stable: set<string>)
    decreases arg, 1
  {
    if name == "Fn::GetAtt" then TargetOf(arg).Computed? ==> TargetOf(arg).resource in stable
    else if name == "Fn::If" then
      IsChoice(arg) ==> ComputedOnlyOf(arg.items[1], stable) && ComputedOnlyOf(arg.items[2], stable)
    else if name == "Fn::Sub" then
      IsSub(arg) ==> forall k | k in SubVariables(arg) :: ComputedOnlyOf(SubVariables(arg)[k], stable)
    else if name in BUILTINS then ComputedOnlyOf(arg, stable)
    else true
  }

  // Two stacks that answer alike to everything an expression reads.
  ghost predicate Agree(a: Stack, b: Stack, pairs: set<Pair>) {
    && a.mappings == b.mappings && a.compute == b.compute
    && (forall c :: a.condition(c) == b.condition(c))
    && (forall pair | pair in pairs :: Lookup(a, pair) == Lookup(b, pair))
  }

  // Evaluation depends on nothing but the attributes read, conditions and mappings.
  lemma {:induction false} Coincidence(a: Stack, b: Stack, v: Json)
    requires !ExternalOrUnknown(v) && Agree(a, b, Reads(a, v))
    ensures Eval(a, v) == Eval(b, v)
    decreases v, 0
  {
    match v
    case List(items) =>
      forall i | 0 <= i < |items| ensures Eval(a, items[i]) == Eval(b, items[i]) {
        Coincidence(a, b, items[i]);
      }
      if Eval(a, v).Some? {
        assert Eval(a, v).value.items == Eval(b, v).value.items;
      }
    case Object(fields) =>
      match IntrinsicOf(fields) {
        case Some(name) => CallCoincidence(a, b, name, fields[name]);
        case None =>
          forall k | k in fields ensures Eval(a, fields[k]) == Eval(b, fields[k]) {
            Coincidence(a, b, fields[k]);
          }
          if EvalFields(a, fields, v).Some? {
            assert EvalFields(a, fields, v).value.fields == EvalFields(b, fields, v).value.fields;
          }
      }
    case _ =>
  }

  lemma {:induction false} CallCoincidence(a: Stack, b: Stack, name: string, arg: Json)
    requires !ExternalOrUnknown(arg) && (name in SUPPORTED || name == "Ref")
    requires Agree(a, b, CallReads(a, name, arg))
    ensures EvalCall(a, name, arg) == EvalCall(b, name, arg)
    decreases arg, 2
  {
    if name == "Ref" || name == "Fn::GetAtt" {
      LookupCoincidence(a, b, name, arg);
    } else if name == "Fn::If" {
      if IsChoice(arg) {
        Coincidence(a, b, arg.items[1]);
        Coincidence(a, b, arg.items[2]);
      }
    } else if name == "Fn::Sub" {
      SubCoincidence(a, b, arg);
    } else {
      Coincidence(a, b, arg);
    }
  }

  lemma {:induction false} LookupCoincidence(a: Stack, b: Stack, name: string, arg: Json)
    requires (name == "Ref" || name == "Fn::GetAtt") && Agree(a, b, CallReads(a, name, arg))
    ensures EvalCall(a, name, arg) == EvalCall(b, name, arg)
  {
  }

  lemma {:induction false} SubCoincidence(a: Stack, b: Stack, arg: Json)
    requires !ExternalOrUnknown(arg) && Agree(a, b, CallReads(a, "Fn::Sub", arg))
    ensures EvalCall(a, "Fn::Sub", arg) == EvalCall(b, "Fn::Sub", arg)
    decreases arg, 1
  {
    if IsSub(arg) {
      var variables := SubVariables(arg);
      forall k | k in variables ensures Eval(a, variables[k]) == Eval(b, variables[k]) {
        Coincidence(a, b, variables[k]);
      }
      if forall k | k in variables :: Eval(a, variables[k]).Some? {
        var values := map k | k in variables :: Eval(a, variables[k]).value;
        var theirs := map k | k in variables :: Eval(b, variables[k]).value;
        assert values == theirs && values.Keys == variables.Keys;
        SubstituteCoincidence(a, b, Pieces(SubText(arg).text), values);
      }
    }
  }

  lemma {:induction false} SubstituteCoincidence(a: Stack, b: Stack, pieces: seq<Piece>, variables: map<string, Json>)
    requires Agree(a, b, VariableReferences(pieces, variables.Keys))
    ensures Substitute(a, pieces, variables) == Substitute(b, pieces, variables)
  {
    if pieces != [] {
      assert pieces[0] in pieces;
      assert forall p | p in pieces[1..] :: p in pieces;
      SubstituteCoincidence(a, b, pieces[1..], variables);
      if pieces[0].Variable? && !StartsWith(pieces[0].name, "!") && pieces[0].name !in variables {
        assert VariablePair(pieces[0].name) in VariableReferences(pieces, variables.Keys);
      }
    }
  }

  /******* What the collector covers *******/

  // Everything read was found, or is an attribute of a resource of a set.
  predicate Covered(used: set<Pair>, found: set<Pair>, stable: set<string>) {
    forall pair | pair in used :: pair in found || pair.0 in stable
  }

  lemma ItemReferences(items: seq<Json>, i: nat)
    requires i < |items|
    ensures References(items[i]) <= References(List(items))
  {
  }

  lemma FieldReferences(fields: map<string, Json>, k: string)
    requires k in fields
    ensures References(fields[k]) <= References(Object(fields))
  {
  }

  lemma {:induction false} CollectorCovers(stack: Stack, v: Json, stable: set<string>)
    requires ComputedOnlyOf(v, stable)
    ensures Covered(Reads(stack, v), References(v), stable)
    decreases v, 0
  {
    match v
    case List(items) =>
      forall i | 0 <= i < |items| ensures Covered(Reads(stack, items[i]), References(v), stable) {
        CollectorCovers(stack, items[i], stable);
        ItemReferences(items, i);
      }
    case Object(fields) =>
      match IntrinsicOf(fields) {
        case Some(name) => CallCovered(stack, name, fields, stable);
        case None =>
          forall k | k in fields ensures Covered(Reads(stack, fields[k]), References(v), stable) {
            CollectorCovers(stack, fields[k], stable);
            FieldReferences(fields, k);
          }
      }
    case _ =>
  }

  lemma {:induction false} CallCovered(stack: Stack, name: string, fields: map<string, Json>, stable: set<string>)
    requires fields.Keys == {name} && CallComputesOnlyOf(name, fields[name], stable)
    ensures Covered(CallReads(stack, name, fields[name]), References(Object(fields)), stable)
    decreases fields[name], 2
  {
    if name == "Ref" || name == "Fn::GetAtt" {
      LookupCovered(stack, name, fields, stable);
    } else if name == "Fn::Sub" {
      SubCovered(stack, fields, stable);
    } else {
      FieldReferences(fields, name);
      if name == "Fn::If" {
        ChoiceCovered(stack, fields[name], stable);
      } else if name in BUILTINS {
        CollectorCovers(stack, fields[name], stable);
      }
    }
  }

  lemma {:induction false} LookupCovered(stack: Stack, name: string, fields: map<string, Json>, stable: set<string>)
    requires (name == "Ref" || name == "Fn::GetAtt") && fields.Keys == {name}
    requires CallComputesOnlyOf(name, fields[name], stable)
    ensures Covered(CallReads(stack, name, fields[name]), References(Object(fields)), stable)
  {
    var arg := fields[name];
    FieldReferences(fields, name);
    assert DirectReferences(fields) <= References(Object(fields));
    if name == "Fn::GetAtt" && TargetOf(arg).Computed? {
      ItemReferences(arg.items, 1);
      assert (TargetOf(arg).name, "Ref") in DirectReferences(arg.items[1].fields);
    } else if name == "Ref" {
      assert fields.Keys != {"Fn::GetAtt"} by { assert "Ref" !in {"Fn::GetAtt"}; }
    }
  }

  lemma {:induction false} ChoiceCovered(stack: Stack, arg: Json, stable: set<string>)
    requires CallComputesOnlyOf("Fn::If", arg, stable)
    ensures Covered(CallReads(stack, "Fn::If", arg), References(arg), stable)
    decreases arg, 1
  {
    if IsChoice(arg) {
      CollectorCovers(stack, arg.items[1], stable);
      CollectorCovers(stack, arg.items[2], stable);
      ItemReferences(arg.items, 1);
      ItemReferences(arg.items, 2);
    }
  }

  lemma {:induction false} SubCovered(stack: Stack, fields: map<string, Json>, stable: set<string>)
    requires fields.Keys == {"Fn::Sub"} && CallComputesOnlyOf("Fn::Sub", fields["Fn::Sub"], stable)
    ensures Covered(CallReads(stack, "Fn::Sub", fields["Fn::Sub"]), References(Object(fields)), stable)
    decreases fields["Fn::Sub"], 1
  {
    var arg := fields["Fn::Sub"];
    if IsSub(arg) {
      var variables := SubVariables(arg);
      TextReferences(fields);
      forall k | k in variables ensures Covered(Reads(stack, variables[k]), References(Object(fields)), stable) {
        CollectorCovers(stack, variables[k], stable);
        FieldReferences(variables, k);
        ItemReferences(arg.items, 1);
        FieldReferences(fields, "Fn::Sub");
      }
    }
  }

  lemma TextReferences(fields: map<string, Json>)
    requires "Fn::Sub" in fields && IsSub(fields["Fn::Sub"])
    ensures var arg := fields["Fn::Sub"];
            VariableReferences(Pieces(SubText(arg).text), SubVariables(arg).Keys) <= References(Object(fields))
  {
    assert SubOverrides(fields["Fn::Sub"]) == SubVariables(fields["Fn::Sub"]).Keys;
    assert DirectReferences(fields) <= References(Object(fields));
  }

  // A stack in which every attribute, and so every computed attribute name, is `name`.
  function Uniform(name: string): Stack {
    Stack(map[], _ => Some(Text(name)), _ => true, Null, (_, _, _) => None, (_, _) => None)
  }

  lemma {:induction false} ComputedEscapes(name: string, v: Json, stable: set<string>)
    requires !ComputedOnlyOf(v, stable)
    ensures exists resource :: resource !in stable && (resource, name) in Reads(Uniform(name), v)
    decreases v, 0
  {
    match v
    case List(items) =>
      var i :| 0 <= i < |items| && !ComputedOnlyOf(items[i], stable);
      ComputedEscapes(name, items[i], stable);
    case Object(fields) =>
      match IntrinsicOf(fields) {
        case Some(call) => CallEscapes(name, call, fields[call], stable);
        case None =>
          var k :| k in fields && !ComputedOnlyOf(fields[k], stable);
          ComputedEscapes(name, fields[k], stable);
      }
  }

  lemma {:induction false} CallEscapes(name: string, call: string, arg: Json, stable: set<string>)
    requires !CallComputesOnlyOf(call, arg, stable)
    ensures exists resource :: resource !in stable && (resource, name) in CallReads(Uniform(name), call, arg)
    decreases arg, 1
  {
    if call == "Fn::GetAtt" {
      var resource := TargetOf(arg).resource;
      assert ComputedPair(Uniform(name), resource, TargetOf(arg).name) == Some((resource, name));
      assert (resource, name) in CallReads(Uniform(name), call, arg);
    } else if call == "Fn::If" {
      ComputedEscapes(name, if ComputedOnlyOf(arg.items[1], stable) then arg.items[2] else arg.items[1], stable);
    } else if call == "Fn::Sub" {
      var variables := SubVariables(arg);
      var k :| k in variables && !ComputedOnlyOf(variables[k], stable);
      ComputedEscapes(name, variables[k], stable);
    } else {
      ComputedEscapes(name, arg, stable);
    }
  }

  // An attribute name that no pair of a set has.
  lemma {:induction false} UnusedName(pairs: set<Pair>) returns (name: string)
    ensures forall pair | pair in pairs :: |pair.1| < |name|
  {
    if pairs == {} {
      name := "";
    } else {
      var pair :| pair in pairs;
      var shorter := UnusedName(pairs - {pair});
      name := shorter + pair.1 + "x";
    }
  }

  // The exact condition: in every stack the collector finds whatever an expression reads,
  // but for the resources of a set, if and only if the expression computes attribute names
  // for resources of that set only.
  lemma {:induction false} CollectorCoversIff(v: Json, stable: set<string>)
    ensures ComputedOnlyOf(v, stable) <==> forall stack: Stack :: Covered(Reads(stack, v), References(v), stable)
  {
    if ComputedOnlyOf(v, stable) {
      forall stack: Stack ensures Covered(Reads(stack, v), References(v), stable) {
        CollectorCovers(stack, v, stable);
      }
    } else {
      var name := UnusedName(References(v));
      ComputedEscapes(name, v, stable);
      var resource :| resource !in stable && (resource, name) in Reads(Uniform(name), v);
      assert (resource, name) !in References(v);
      assert !Covered(Reads(Uniform(name), v), References(v), stable);
    }
  }
}
