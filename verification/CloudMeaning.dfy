// What the expressions of CloudExpression mean and mention, stated without its functions:
// the laws of the evaluator, and which texts make which references.
module CloudMeaning {
  import opened Options
  import opened PairOrder
  import opened Texts
  import opened CloudExpression

  /******* Names inside texts *******/

  // A text is cut at its first dot.
  lemma {:induction false} SplitDotIff(text: string, head: string, tail: string)
    ensures SplitDot(text) == Some((head, tail)) <==> text == head + "." + tail && '.' !in head
  {
    if text != "" && text[0] != '.' {
      if head != "" {
        SplitDotIff(text[1..], head[1..], tail);
        SplitDotStep(text, head, tail);
      }
    } else if text != "" {
      assert head != "" ==> (head + "." + tail)[0] == head[0];
      assert head == "" ==> "" + "." + tail == ['.'] + tail;
      assert text == ['.'] + text[1..];
    }
  }

  lemma SplitDotStep(text: string, head: string, tail: string)
    requires text != "" && head != "" && text[0] != '.'
    ensures text == head + "." + tail && '.' !in head <==>
            text[0] == head[0] && text[1..] == head[1..] + "." + tail && '.' !in head[1..]
    ensures head == [head[0]] + head[1..] && text == [text[0]] + text[1..]
  {
    assert head == [head[0]] + head[1..] && text == [text[0]] + text[1..];
    assert head + "." + tail == [head[0]] + (head[1..] + "." + tail);
  }

  lemma {:induction false} NoDot(text: string)
    ensures SplitDot(text) == None <==> '.' !in text
  {
    if text != "" {
      NoDot(text[1..]);
      assert text == [text[0]] + text[1..];
    }
  }

  // A name in braces behind a dollar sign is one piece; the name is not empty and holds no
  // closing brace.
  lemma {:induction false} PiecesOfVariable(name: string, rest: string)
    requires name != "" && '}' !in name
    ensures Pieces("${" + name + "}" + rest) == [Variable(name)] + Pieces(rest)
  {
    var text := "${" + name + "}" + rest;
    NameEndAt(text, 2, 2 + |name|);
    assert text[2..2 + |name|] == name && text[2 + |name| + 1..] == rest;
    assert text[..2] == "${";
  }

  lemma {:induction false} NameEndAt(text: string, from: nat, end: nat)
    requires from <= end < |text| && text[end] == '}' && forall i | from <= i < end :: text[i] != '}'
    ensures NameEnd(text, from) == end
    decreases end - from
  {
    if from < end {
      NameEndAt(text, from + 1, end);
    }
  }

  // Every other character stands for itself.
  lemma {:induction false} PiecesOfLetter(text: string)
    requires text != ""
    requires forall name: string, rest: string | name != "" && '}' !in name :: text != "${" + name + "}" + rest
    ensures Pieces(text) == [Letter(text[0])] + Pieces(text[1..])
  {
    if StartsWith(text, "${") && 2 < NameEnd(text, 2) < |text| {
      var name, rest := VariableFound(text);
      assert false;
    }
  }

  lemma VariableFound(text: string) returns (name: string, rest: string)
    requires StartsWith(text, "${") && 2 < NameEnd(text, 2) < |text|
    ensures name != "" && '}' !in name && text == "${" + name + "}" + rest
  {
    var end := NameEnd(text, 2);
    NameEndIs(text, 2);
    name, rest := text[2..end], text[end + 1..];
    assert text == text[..2] + text[2..end] + [text[end]] + text[end + 1..];
  }

  lemma {:induction false} NameEndIs(text: string, from: nat)
    requires from <= |text|
    ensures NameEnd(text, from) < |text| ==> text[NameEnd(text, from)] == '}'
    ensures forall i | from <= i < NameEnd(text, from) :: text[i] != '}'
    decreases |text| - from
  {
    if from < |text| && text[from] != '}' {
      NameEndIs(text, from + 1);
    }
  }

  /******* What is mentioned *******/

  // The value and everything inside it.
  function Subterms(v: Json): set<Json> {
    {v} + (match v
           case List(items) => set i, x | 0 <= i < |items| && x in Subterms(items[i]) :: x
           case Object(fields) => set k, x | k in fields && x in Subterms(fields[k]) :: x
           case _ => {})
  }

  predicate TextOfSub(item: Json, text: string) {
    item == Text(text) || (item.List? && item.items != [] && item.items[0] == Text(text))
  }

  predicate Overridden(item: Json, name: string) {
    item.List? && |item.items| == 2 && item.items[1].Object? && name in item.items[1].fields
  }

  // A variable names a resource or parameter, or an attribute behind the first dot.
  predicate Names(name: string, pair: Pair) {
    if '.' in name then name == pair.0 + "." + pair.1 && '.' !in pair.0 else pair == (name, "Ref")
  }

  ghost predicate SubMentions(item: Json, pair: Pair) {
    exists text, name :: TextOfSub(item, text) && Variable(name) in Pieces(text) && !("!" <= name)
                         && !Overridden(item, name) && Names(name, pair)
  }

  // One value that names the pair itself.
  ghost predicate Mentions(v: Json, pair: Pair) {
    || (v == Object(map["Ref" := Text(pair.0)]) && pair.1 == "Ref")
    || v == Object(map["Fn::GetAtt" := List([Text(pair.0), Text(pair.1)])])
    || (v == Object(map["Fn::GetAtt" := Text(pair.0 + "." + pair.1)]) && '.' !in pair.0)
    || (v.Object? && "Fn::Sub" in v.fields && SubMentions(v.fields["Fn::Sub"], pair))
  }

  // The collector finds a pair exactly when some value inside mentions it.
  lemma {:induction false} ReferencesIff(v: Json, pair: Pair)
    ensures pair in References(v) <==> exists x :: x in Subterms(v) && Mentions(x, pair)
    decreases v
  {
    match v
    case List(items) =>
      forall i | 0 <= i < |items|
        ensures pair in References(items[i]) <==> exists x :: x in Subterms(items[i]) && Mentions(x, pair)
      {
        ReferencesIff(items[i], pair);
      }
      assert !Mentions(v, pair);
    case Object(fields) =>
      forall k | k in fields
        ensures pair in References(fields[k]) <==> exists x :: x in Subterms(fields[k]) && Mentions(x, pair)
      {
        ReferencesIff(fields[k], pair);
      }
      DirectIff(fields, pair);
    case _ =>
      assert !Mentions(v, pair);
  }

  lemma DirectIff(fields: map<string, Json>, pair: Pair)
    ensures pair in DirectReferences(fields) <==> Mentions(Object(fields), pair)
  {
    if "Fn::Sub" in fields {
      SubIff(fields["Fn::Sub"], pair);
    }
    GetAttIff(fields, pair);
    RefIff(fields, pair);
  }

  lemma RefIff(fields: map<string, Json>, pair: Pair)
    ensures Object(fields) == Object(map["Ref" := Text(pair.0)]) <==>
            fields.Keys == {"Ref"} && fields["Ref"] == Text(pair.0)
    ensures fields.Keys == {"Ref"} ==> fields.Keys != {"Fn::GetAtt"}
  {
    if fields.Keys == {"Ref"} && fields["Ref"] == Text(pair.0) {
      assert fields == map["Ref" := Text(pair.0)];
    }
    assert fields.Keys == {"Ref"} ==> "Ref" in fields.Keys && "Ref" !in {"Fn::GetAtt"};
  }

  lemma GetAttIff(fields: map<string, Json>, pair: Pair)
    ensures fields.Keys == {"Fn::GetAtt"} && GetAttTarget(fields["Fn::GetAtt"]) == Some(pair) <==>
            || Object(fields) == Object(map["Fn::GetAtt" := List([Text(pair.0), Text(pair.1)])])
            || (Object(fields) == Object(map["Fn::GetAtt" := Text(pair.0 + "." + pair.1)]) && '.' !in pair.0)
  {
    assert pair == (pair.0, pair.1);
    if fields.Keys == {"Fn::GetAtt"} {
      var arg := fields["Fn::GetAtt"];
      assert fields == map["Fn::GetAtt" := arg];
      TargetIff(arg, pair);
    }
  }

  lemma TargetIff(arg: Json, pair: Pair)
    ensures GetAttTarget(arg) == Some(pair) <==>
            arg == List([Text(pair.0), Text(pair.1)]) || (arg == Text(pair.0 + "." + pair.1) && '.' !in pair.0)
  {
    assert pair == (pair.0, pair.1);
    if arg.Text? {
      SplitDotIff(arg.text, pair.0, pair.1);
    } else if arg.List? && |arg.items| == 2 {
      assert arg.items == [arg.items[0], arg.items[1]];
    }
  }

  lemma SubIff(item: Json, pair: Pair)
    ensures pair in SubReferences(item) <==> SubMentions(item, pair)
  {
    forall name ensures VariablePair(name) == pair <==> Names(name, pair) {
      NamesIff(name, pair);
    }
    forall name ensures StartsWith(name, "!") <==> "!" <= name {}
    forall name ensures name in SubOverrides(item) <==> Overridden(item, name) {}
    forall text ensures TextOfSub(item, text) <==> SubText(item) == Text(text) {}
    if pair in SubReferences(item) {
      var text := SubText(item).text;
      var p :| p in Pieces(text) && p.Variable? && !StartsWith(p.name, "!") && p.name !in SubOverrides(item)
               && VariablePair(p.name) == pair;
      assert p == Variable(p.name) && TextOfSub(item, text);
    }
  }

  lemma NamesIff(name: string, pair: Pair)
    ensures VariablePair(name) == pair <==> Names(name, pair)
  {
    assert pair == (pair.0, pair.1);
    NoDot(name);
    SplitDotIff(name, pair.0, pair.1);
  }

  // Functions that may be left in a proven definition, by name, and no others.
  function FunctionKeys(v: Json): set<string> {
    match v
    case List(items) => set i, k | 0 <= i < |items| && k in FunctionKeys(items[i]) :: k
    case Object(fields) =>
      (set k | k in fields && "Fn::" <= k) + set k, n | k in fields && n in FunctionKeys(fields[k]) :: n
    case _ => {}
  }

  lemma {:induction false} SupportedIff(v: Json)
    ensures !ExternalOrUnknown(v) <==>
            FunctionKeys(v) <= {"Fn::GetAtt", "Fn::Sub", "Fn::Join", "Fn::If", "Fn::Select", "Fn::Split",
                                "Fn::FindInMap", "Fn::Base64"}
  {
    match v
    case List(items) =>
      forall i | 0 <= i < |items|
        ensures !ExternalOrUnknown(items[i]) <==> FunctionKeys(items[i]) <= SUPPORTED
      {
        SupportedIff(items[i]);
      }
    case Object(fields) =>
      forall k | k in fields ensures !ExternalOrUnknown(fields[k]) <==> FunctionKeys(fields[k]) <= SUPPORTED {
        SupportedIff(fields[k]);
      }
    case _ =>
  }

  /******* The laws of the evaluator *******/

  lemma {:induction false} CallMeans(stack: Stack, k: string, arg: Json)
    requires k == "Ref" || "Fn::" <= k
    ensures Eval(stack, Object(map[k := arg])) == EvalCall(stack, k, arg)
    ensures forall stable :: ComputedOnlyOf(Object(map[k := arg]), stable) <==> CallComputesOnlyOf(k, arg, stable)
  {
    var fields := map[k := arg];
    assert fields.Keys == {k} && |{k}| == 1;
    assert IntrinsicOf(fields) == Some(k);
  }

  // The value of a parameter, or else an attribute of a resource; a parameter has none.
  function Named(stack: Stack, name: string, attribute: string): Option<Json> {
    if name !in stack.parameters then stack.attributes((name, attribute))
    else if attribute == "Ref" then Some(stack.parameters[name])
    else None
  }

  lemma {:induction false} RefLaw(stack: Stack, name: string)
    ensures Eval(stack, Object(map["Ref" := Text(name)])) == Named(stack, name, "Ref")
  {
    CallMeans(stack, "Ref", Text(name));
  }

  lemma {:induction false} GetAttLaw(stack: Stack, name: string, attribute: string)
    ensures Eval(stack, Object(map["Fn::GetAtt" := List([Text(name), Text(attribute)])]))
         == Named(stack, name, attribute)
    ensures '.' !in name ==>
              Eval(stack, Object(map["Fn::GetAtt" := Text(name + "." + attribute)])) == Named(stack, name, attribute)
  {
    CallMeans(stack, "Fn::GetAtt", List([Text(name), Text(attribute)]));
    CallMeans(stack, "Fn::GetAtt", Text(name + "." + attribute));
    SplitDotIff(name + "." + attribute, name, attribute);
  }

  // An attribute name computed by Ref is a lookup of the attribute it names.
  lemma {:induction false} ComputedLaw(stack: Stack, name: string, parameter: string, attribute: string)
    requires Named(stack, parameter, "Ref") == Some(Text(attribute))
    ensures Eval(stack, Object(map["Fn::GetAtt" := List([Text(name), Object(map["Ref" := Text(parameter)])])]))
         == Named(stack, name, attribute)
  {
    var arg := List([Text(name), Object(map["Ref" := Text(parameter)])]);
    CallMeans(stack, "Fn::GetAtt", arg);
    assert arg.items[1].fields.Keys == {"Ref"};
    assert TargetOf(arg) == Computed(name, parameter);
    assert ComputedPair(stack, name, parameter) == Some((name, attribute));
  }

  lemma {:induction false} IfLaw(stack: Stack, condition: string, yes: Json, no: Json)
    ensures Eval(stack, Object(map["Fn::If" := List([Text(condition), yes, no])]))
         == Eval(stack, if stack.condition(condition) then yes else no)
  {
    CallMeans(stack, "Fn::If", List([Text(condition), yes, no]));
  }

  // The functions that only compute work on the value of their argument.
  lemma {:induction false} ComputeLaw(stack: Stack, name: string, arg: Json)
    requires name in {"Fn::Join", "Fn::Select", "Fn::Split", "Fn::FindInMap", "Fn::Base64"}
    ensures Eval(stack, Object(map[name := arg]))
         == if Eval(stack, arg).None? then None else stack.compute(name, Eval(stack, arg).value, stack.mappings)
  {
    CallMeans(stack, name, arg);
  }

  lemma {:induction false} ListLaw(stack: Stack, items: seq<Json>)
    ensures Eval(stack, List(items)).Some? <==> forall i | 0 <= i < |items| :: Eval(stack, items[i]).Some?
    ensures Eval(stack, List(items)).Some? ==>
              && Eval(stack, List(items)).value.List? && |Eval(stack, List(items)).value.items| == |items|
              && forall i | 0 <= i < |items| :: Some(Eval(stack, List(items)).value.items[i]) == Eval(stack, items[i])
  {
  }

  // An object that is no call keeps its keys.
  lemma {:induction false} ObjectLaw(stack: Stack, fields: map<string, Json>)
    requires forall k | fields.Keys == {k} :: k != "Ref" && !("Fn::" <= k)
    ensures Eval(stack, Object(fields)).Some? <==> forall k | k in fields :: Eval(stack, fields[k]).Some?
    ensures Eval(stack, Object(fields)).Some? ==>
              && Eval(stack, Object(fields)).value.Object?
              && Eval(stack, Object(fields)).value.fields.Keys == fields.Keys
              && forall k | k in fields :: Some(Eval(stack, Object(fields)).value.fields[k]) == Eval(stack, fields[k])
  {
    assert IntrinsicOf(fields) == None;
    assert Eval(stack, Object(fields)) == EvalFields(stack, fields, Object(fields));
  }

  /******* Fn::Sub *******/

  lemma {:induction false} SubCall(stack: Stack, arg: Json, values: map<string, Json>)
    requires IsSub(arg) && values.Keys == SubVariables(arg).Keys
    requires forall k | k in values :: Eval(stack, SubVariables(arg)[k]) == Some(values[k])
    ensures EvalCall(stack, "Fn::Sub", arg) == Substitute(stack, Pieces(SubText(arg).text), values)
  {
    var variables := SubVariables(arg);
    assert forall k | k in variables :: Eval(stack, variables[k]).Some?;
    var found := map k | k in variables :: Eval(stack, variables[k]).value;
    assert EvalCall(stack, "Fn::Sub", arg) == Substitute(stack, Pieces(SubText(arg).text), found);
    assert found == values;
  }

  lemma {:induction false} SubLaw(stack: Stack, text: string)
    ensures Eval(stack, Object(map["Fn::Sub" := Text(text)])) == Substitute(stack, Pieces(text), map[])
  {
    CallMeans(stack, "Fn::Sub", Text(text));
    SubCall(stack, Text(text), map[]);
  }

  lemma {:induction false} SubWithLaw(stack: Stack, text: string, variables: map<string, Json>,
                                      values: map<string, Json>)
    requires values.Keys == variables.Keys && forall k | k in variables :: Eval(stack, variables[k]) == Some(values[k])
    ensures Eval(stack, Object(map["Fn::Sub" := List([Text(text), Object(variables)])]))
         == Substitute(stack, Pieces(text), values)
  {
    var arg := List([Text(text), Object(variables)]);
    CallMeans(stack, "Fn::Sub", arg);
    assert SubVariables(arg) == variables && SubText(arg) == Text(text);
    SubCall(stack, arg, values);
  }

  // The texts of two results, one behind the other.
  function Joined(a: Option<Json>, b: Option<Json>): Option<Json> {
    match (a, b)
    case (Some(Text(x)), Some(Text(y))) => Some(Text(x + y))
    case _ => None
  }

  lemma {:induction false} SubstituteConcat(stack: Stack, p: seq<Piece>, q: seq<Piece>, values: map<string, Json>)
    ensures Substitute(stack, p + q, values) == Joined(Substitute(stack, p, values), Substitute(stack, q, values))
  {
    SubstituteText(stack, q, values);
    if p == [] {
      assert p + q == q;
      if Substitute(stack, q, values).Some? {
        assert "" + Substitute(stack, q, values).value.text == Substitute(stack, q, values).value.text;
      }
    } else {
      assert (p + q)[0] == p[0] && (p + q)[1..] == p[1..] + q;
      SubstituteConcat(stack, p[1..], q, values);
      SubstituteStep(stack, p, values);
      SubstituteStep(stack, p + q, values);
      SubstituteText(stack, p[1..], values);
      JoinedTwice(Substitute(stack, [p[0]], values), Substitute(stack, p[1..], values), Substitute(stack, q, values));
    }
  }

  lemma {:induction false} SubstituteStep(stack: Stack, p: seq<Piece>, values: map<string, Json>)
    requires p != []
    ensures Substitute(stack, p, values) == Joined(Substitute(stack, [p[0]], values), Substitute(stack, p[1..], values))
  {
    assert [p[0]][1..] == [];
    assert forall x: string :: x + "" == x;
  }

  lemma JoinedTwice(a: Option<Json>, b: Option<Json>, c: Option<Json>)
    ensures Joined(Joined(a, b), c) == Joined(a, Joined(b, c))
  {
    if a.Some? && a.value.Text? && b.Some? && b.value.Text? && c.Some? && c.value.Text? {
      assert (a.value.text + b.value.text) + c.value.text == a.value.text + (b.value.text + c.value.text);
    }
  }

  lemma {:induction false} SubstituteText(stack: Stack, p: seq<Piece>, values: map<string, Json>)
    ensures Substitute(stack, p, values).Some? ==> Substitute(stack, p, values).value.Text?
  {
  }

  // A result that is a text, as a piece of a text has to be.
  function OnlyText(v: Option<Json>): Option<Json> {
    if v.Some? && v.value.Text? then v else None
  }

  // What each single piece stands for.
  lemma {:induction false} PieceLaw(stack: Stack, c: char, name: string, values: map<string, Json>)
    ensures Substitute(stack, [], values) == Some(Text(""))
    ensures Substitute(stack, [Letter(c)], values) == Some(Text([c]))
    ensures Substitute(stack, [Variable("!" + name)], values) == Some(Text("${" + name + "}"))
    ensures !("!" <= name) && name in values ==>
              Substitute(stack, [Variable(name)], values) == OnlyText(Some(values[name]))
    ensures !("!" <= name) && name !in values && '.' !in name ==>
              Substitute(stack, [Variable(name)], values) == OnlyText(Named(stack, name, "Ref"))
  {
    assert forall x: string :: x + "" == x;
    assert [Letter(c)][1..] == [] && [Variable("!" + name)][1..] == [] && [Variable(name)][1..] == [];
    assert ("!" + name)[1..] == name;
    NoDot(name);
  }

  lemma {:induction false} AttributeLaw(stack: Stack, name: string, attribute: string, values: map<string, Json>)
    requires '.' !in name && !("!" <= name + "." + attribute) && name + "." + attribute !in values
    ensures Substitute(stack, [Variable(name + "." + attribute)], values) == OnlyText(Named(stack, name, attribute))
  {
    var full := name + "." + attribute;
    assert forall x: string :: x + "" == x;
    assert [Variable(full)][1..] == [];
    SplitDotIff(full, name, attribute);
  }
}
