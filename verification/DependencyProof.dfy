// The check that explains why a resource means the same before and after a change set,
// and its soundness for the expressions of CloudExpression.
module DependencyProof {
  import opened Options
  import opened PairOrder
  import opened CloudExpression
  import opened CloudMeaning
  import opened Texts

  /******* Templates and change sets *******/

  datatype Resource = Resource(
    kind: string, properties: map<string, Json>, condition: Option<string>, others: map<string, Json>)

  datatype Template = Template(
    parameters: set<string>, conditions: Json, mappings: Json, resources: map<string, Resource>)

  datatype Change = Change(action: string, replacement: string)

  datatype Evidence = Evidence(resource: string, attribute: string, referenceChange: Option<string>)

  // The fields that name a resource of the kinds whose identity can be followed.
  function IdentityFields(kind: string): Option<seq<string>> {
    match kind
    case "AWS::IAM::Role" => Some(["RoleName", "Path"])
    case "AWS::Events::Rule" => Some(["Name", "EventBusName"])
    case "AWS::Lambda::Function" => Some(["FunctionName"])
    case "AWS::S3::Bucket" => Some(["BucketName"])
    case "AWS::KMS::Key" => Some([])
    case "AWS::CodeBuild::Project" => Some(["Name"])
    case _ => None
  }

  function Get(fields: map<string, Json>, key: string): Option<Json> {
    if key in fields then Some(fields[key]) else None
  }

  predicate SameNaming(a: Resource, b: Resource) {
    && a.kind == b.kind && a.condition == b.condition
    && IdentityFields(a.kind).Some?
    && forall k | k in IdentityFields(a.kind).value :: Get(a.properties, k) == Get(b.properties, k)
  }

  predicate ChangedInPlace(change: Change) {
    change.action == "Modify" && change.replacement == "False"
  }

  /******* The check *******/

  predicate Skipped(pair: Pair, before: Template) {
    StartsWith(pair.0, "AWS::") || pair.0 in before.parameters
  }

  // One reference whose value cannot have changed.
  predicate Explained(pair: Pair, before: Template, after: Template, changes: map<string, Change>,
                      physical: set<string>)
  {
    var (target, attribute) := pair;
    && target in before.resources && target in after.resources && target in physical
    && before.resources[target].kind == after.resources[target].kind
    && if target in changes then
         ChangedInPlace(changes[target]) && attribute in {"Arn", "Ref"}
         && SameNaming(before.resources[target], after.resources[target])
       else before.resources[target] == after.resources[target]
  }

  predicate SameDefinition(logical: string, action: string, before: Template, after: Template) {
    && logical in before.resources && logical in after.resources
    && before.resources[logical] == after.resources[logical] && action == "Modify"
    && before.conditions == after.conditions && before.mappings == after.mappings
    && !ExternalOrUnknown(Object(after.resources[logical].properties))
  }

  function Needed(properties: map<string, Json>, before: Template): set<Pair> {
    set pair | pair in References(Object(properties)) && !Skipped(pair, before)
  }

  function EvidenceOf(pair: Pair, changes: map<string, Change>): Evidence {
    Evidence(pair.0, pair.1, if pair.0 in changes then Some(changes[pair.0].replacement) else None)
  }

  function EvidenceList(pairs: seq<Pair>, before: Template, changes: map<string, Change>): seq<Evidence> {
    if pairs == [] then []
    else
      EvidenceList(pairs[..|pairs| - 1], before, changes)
      + if Skipped(pairs[|pairs| - 1], before) then [] else [EvidenceOf(pairs[|pairs| - 1], changes)]
  }

  // When evidence is given: the definition is the same, some reference needs an
  // explanation and all that need one have it.
  predicate Proven(logical: string, action: string, before: Template, after: Template,
                   changes: map<string, Change>, physical: set<string>) {
    && SameDefinition(logical, action, before, after)
    && var needed := Needed(after.resources[logical].properties, before);
       needed != {} && forall pair | pair in needed :: Explained(pair, before, after, changes, physical)
  }

  // dependency_proof
  method DependencyProof(logical: string, action: string, before: Template, after: Template,
                         changes: map<string, Change>, physical: set<string>) returns (proof: Option<seq<Evidence>>)
    ensures proof.Some? <==> Proven(logical, action, before, after, changes, physical)
    ensures proof.Some? ==> EvidenceFor(proof.value, after.resources[logical].properties, before, changes)
  {
    if !SameDefinition(logical, action, before, after) {
      return None;
    }
    var pairs := Sorted(References(Object(after.resources[logical].properties)));
    var evidence := Explain(pairs, before, after, changes, physical);
    ListedProof(logical, action, before, after, changes, physical);
    EvidenceIs(after.resources[logical].properties, before, changes);
    return if evidence == Some([]) then None else evidence;
  }

  // The loop of dependency_proof over the sorted references.
  method Explain(pairs: seq<Pair>, before: Template, after: Template,
                 changes: map<string, Change>, physical: set<string>) returns (evidence: Option<seq<Evidence>>)
    ensures evidence.Some? <==> AllExplained(pairs, before, after, changes, physical)
    ensures evidence.Some? ==> evidence.value == EvidenceList(pairs, before, changes)
  {
    var found := [];
    for n := 0 to |pairs|
      invariant found == EvidenceList(pairs[..n], before, changes)
      invariant AllExplained(pairs[..n], before, after, changes, physical)
    {
      assert pairs[..n + 1][..n] == pairs[..n];
      if Skipped(pairs[n], before) {
        continue;
      }
      if !Explained(pairs[n], before, after, changes, physical) {
        SomeUnexplained(pairs, n, before, after, changes, physical);
        return None;
      }
      found := found + [EvidenceOf(pairs[n], changes)];
    }
    assert pairs[..|pairs|] == pairs;
    evidence := Some(found);
  }

  predicate AllExplained(pairs: seq<Pair>, before: Template, after: Template, changes: map<string, Change>,
                         physical: set<string>)
  {
    pairs == []
    || (AllExplained(pairs[..|pairs| - 1], before, after, changes, physical)
        && (Skipped(pairs[|pairs| - 1], before) || Explained(pairs[|pairs| - 1], before, after, changes, physical)))
  }

  lemma {:induction false} SomeUnexplained(pairs: seq<Pair>, n: nat, before: Template, after: Template,
                                           changes: map<string, Change>, physical: set<string>)
    requires n < |pairs| && !Skipped(pairs[n], before) && !Explained(pairs[n], before, after, changes, physical)
    ensures !AllExplained(pairs, before, after, changes, physical)
  {
    if n < |pairs| - 1 {
      SomeUnexplained(pairs[..|pairs| - 1], n, before, after, changes, physical);
    }
  }

  lemma {:induction false} AllExplainedIff(pairs: seq<Pair>, before: Template, after: Template,
                                           changes: map<string, Change>, physical: set<string>)
    ensures AllExplained(pairs, before, after, changes, physical) <==>
            forall m | 0 <= m < |pairs| && !Skipped(pairs[m], before) ::
              Explained(pairs[m], before, after, changes, physical)
  {
    if pairs != [] {
      AllExplainedIff(pairs[..|pairs| - 1], before, after, changes, physical);
    }
  }

  lemma {:induction false} ListedProof(logical: string, action: string, before: Template, after: Template,
                    changes: map<string, Change>, physical: set<string>)
    requires SameDefinition(logical, action, before, after)
    ensures var pairs := Sorted(References(Object(after.resources[logical].properties)));
            Proven(logical, action, before, after, changes, physical) <==>
            EvidenceList(pairs, before, changes) != [] && AllExplained(pairs, before, after, changes, physical)
  {
    var pairs := Sorted(References(Object(after.resources[logical].properties)));
    ListedNeeds(after.resources[logical].properties, before, pairs);
    EvidenceListed(pairs, before, changes);
    AllExplainedIff(pairs, before, after, changes, physical);
    forall m | 0 <= m < |pairs| && !Skipped(pairs[m], before)
      ensures pairs[m] in Needed(after.resources[logical].properties, before) {}
  }

  lemma ListedNeeds(properties: map<string, Json>, before: Template, pairs: seq<Pair>)
    requires forall x :: x in pairs <==> x in References(Object(properties))
    ensures forall m | 0 <= m < |pairs| && !Skipped(pairs[m], before) :: pairs[m] in Needed(properties, before)
    ensures forall x | x in Needed(properties, before) ::
              exists m :: 0 <= m < |pairs| && pairs[m] == x && !Skipped(pairs[m], before)
  {
    forall m | 0 <= m < |pairs| && !Skipped(pairs[m], before) ensures pairs[m] in Needed(properties, before) {
      assert pairs[m] in pairs;
    }
    forall x | x in Needed(properties, before)
      ensures exists m :: 0 <= m < |pairs| && pairs[m] == x && !Skipped(pairs[m], before)
    {
      assert x in pairs;
    }
  }

  lemma {:induction false} EvidenceListed(pairs: seq<Pair>, before: Template, changes: map<string, Change>)
    ensures EvidenceList(pairs, before, changes) == [] <==> forall m | 0 <= m < |pairs| :: Skipped(pairs[m], before)
  {
    if pairs != [] {
      EvidenceListed(pairs[..|pairs| - 1], before, changes);
    }
  }

  /******* Parameters of the running stack and of the change set *******/

  // `resolved` is what a parameter that names stored configuration stands for.
  datatype Parameter = Parameter(value: Option<string>, resolved: Option<string>)

  datatype Proposed = Proposed(usePrevious: bool, parameter: Parameter)

  const UNSET := Parameter(None, None)

  function Running(current: map<string, Parameter>, key: string): Parameter {
    if key in current then current[key] else UNSET
  }

  // The parameter checks of inspect_changes.
  predicate ParametersChecked(current: map<string, Parameter>, proposed: map<string, Proposed>) {
    forall k | k in proposed ::
      && (proposed[k].usePrevious || proposed[k].parameter.value == Running(current, k).value)
      && proposed[k].parameter.resolved == Running(current, k).resolved
  }

  function Effective(p: Parameter): Option<string> {
    if p.resolved.Some? then p.resolved else p.value
  }

  function BindingBefore(current: map<string, Parameter>, key: string): Option<string> {
    Effective(Running(current, key))
  }

  function BindingAfter(current: map<string, Parameter>, proposed: map<string, Proposed>, key: string): Option<string> {
    if key !in proposed then None
    else if proposed[key].usePrevious then Effective(proposed[key].parameter.(value := Running(current, key).value))
    else Effective(proposed[key].parameter)
  }

  /******* Soundness *******/

  ghost predicate Binds(stack: Stack, binding: string -> Option<string>) {
    forall k ::
      if binding(k).Some? then k in stack.parameters && stack.parameters[k] == Text(binding(k).value)
      else k in stack.parameters ==> StartsWith(k, "AWS::")
  }

  predicate SameProperty(x: Resource, y: Resource, key: string) {
    (key in x.properties <==> key in y.properties)
    && (key in x.properties && key in y.properties ==> x.properties[key] == y.properties[key])
  }

  // One resource under one name, for the kinds CloudFormation keeps under it: a change of
  // the condition or of a naming property makes another one.
  predicate SameName(x: Resource, y: Resource) {
    && x.kind == y.kind && x.condition == y.condition
    && (|| (x.kind == "AWS::IAM::Role" && SameProperty(x, y, "RoleName") && SameProperty(x, y, "Path"))
        || (x.kind == "AWS::Events::Rule" && SameProperty(x, y, "Name") && SameProperty(x, y, "EventBusName"))
        || (x.kind == "AWS::Lambda::Function" && SameProperty(x, y, "FunctionName"))
        || (x.kind == "AWS::S3::Bucket" && SameProperty(x, y, "BucketName"))
        || x.kind == "AWS::KMS::Key"
        || (x.kind == "AWS::CodeBuild::Project" && SameProperty(x, y, "Name")))
  }

  // What CloudFormation itself guarantees about the attributes of a resource that exists,
  // across a change set: they all stay when the resource is left alone, and its Arn and
  // its Ref stay when it is modified without replacement under the same name.
  predicate Stays(target: string, attribute: string, before: Template, after: Template, changes: map<string, Change>,
                  physical: set<string>)
  {
    && target in before.resources && target in after.resources && target in physical
    && if target in changes then
         && changes[target].action == "Modify" && changes[target].replacement == "False"
         && SameName(before.resources[target], after.resources[target]) && (attribute == "Arn" || attribute == "Ref")
       else before.resources[target] == after.resources[target]
  }

  ghost predicate KeepsAttributes(before: Template, after: Template, changes: map<string, Change>,
                                  physical: set<string>, a: Stack, b: Stack)
  {
    forall target, attribute | Stays(target, attribute, before, after, changes, physical) ::
      a.attributes((target, attribute)) == b.attributes((target, attribute))
  }

  lemma SameNamingIff(x: Resource, y: Resource)
    ensures SameNaming(x, y) <==> SameName(x, y)
  {
    assert forall k :: Get(x.properties, k) == Get(y.properties, k) <==> SameProperty(x, y, k);
    var fields := IdentityFields(x.kind);
    assert fields.Some? ==>
        forall k :: k in fields.value <==> exists i | 0 <= i < |fields.value| :: fields.value[i] == k;
  }

  // The check explains exactly the references whose values stay.
  lemma ExplainedIff(pair: Pair, before: Template, after: Template, changes: map<string, Change>, physical: set<string>)
    ensures Explained(pair, before, after, changes, physical) <==>
            Stays(pair.0, pair.1, before, after, changes, physical)
  {
    if pair.0 in before.resources && pair.0 in after.resources {
      SameNamingIff(before.resources[pair.0], after.resources[pair.0]);
    }
  }

  // When evidence is given, in full: for a modified resource whose definition, conditions
  // and mappings are the same, that calls supported functions only and makes some reference
  // besides pseudo-parameters and parameters, when all such references stay.
  lemma {:induction false} ProvenIff(logical: string, action: string, before: Template, after: Template,
                                     changes: map<string, Change>, physical: set<string>)
    ensures Proven(logical, action, before, after, changes, physical) <==>
            && action == "Modify" && logical in before.resources && logical in after.resources
            && before.resources[logical] == after.resources[logical]
            && before.conditions == after.conditions && before.mappings == after.mappings
            && var v := Object(after.resources[logical].properties);
               && FunctionKeys(v) <= {"Fn::GetAtt", "Fn::Sub", "Fn::Join", "Fn::If", "Fn::Select", "Fn::Split",
                                      "Fn::FindInMap", "Fn::Base64"}
               && (exists pair :: pair in References(v) && !("AWS::" <= pair.0) && pair.0 !in before.parameters)
               && (forall pair | pair in References(v) && !("AWS::" <= pair.0) && pair.0 !in before.parameters ::
                     Stays(pair.0, pair.1, before, after, changes, physical))
  {
    if logical in after.resources {
      var v := Object(after.resources[logical].properties);
      SupportedIff(v);
      NeededIs(after.resources[logical].properties, before);
      forall pair
        ensures Explained(pair, before, after, changes, physical) <==>
                Stays(pair.0, pair.1, before, after, changes, physical)
      {
        ExplainedIff(pair, before, after, changes, physical);
      }
    }
  }

  lemma NeededIs(properties: map<string, Json>, before: Template)
    ensures forall pair :: pair in Needed(properties, before) <==>
              pair in References(Object(properties)) && !("AWS::" <= pair.0) && pair.0 !in before.parameters
  {
  }

  function PairOf(e: Evidence): Pair {
    (e.resource, e.attribute)
  }

  // An entry names a reference that needed an explanation, with the replacement of a
  // target that the change set lists.
  predicate EntryOk(e: Evidence, pairs: seq<Pair>, before: Template, changes: map<string, Change>) {
    && PairOf(e) in pairs && !("AWS::" <= e.resource) && e.resource !in before.parameters
    && if e.resource in changes then e.referenceChange == Some(changes[e.resource].replacement)
       else e.referenceChange == None
  }

  predicate Ascending(evidence: seq<Evidence>) {
    forall i, j | 0 <= i < j < |evidence| :: Less(PairOf(evidence[i]), PairOf(evidence[j]))
  }

  // One entry for each reference that needed an explanation, in ascending order.
  ghost predicate EvidenceFor(evidence: seq<Evidence>, properties: map<string, Json>, before: Template,
                              changes: map<string, Change>)
  {
    var references := References(Object(properties));
    && Ascending(evidence)
    && (forall e | e in evidence :: EntryOk(e, Sorted(references), before, changes))
    && (forall pair | pair in references && !("AWS::" <= pair.0) && pair.0 !in before.parameters ::
          exists e :: e in evidence && PairOf(e) == pair)
  }

  lemma {:induction false} EvidenceIs(properties: map<string, Json>, before: Template, changes: map<string, Change>)
    ensures EvidenceFor(EvidenceList(Sorted(References(Object(properties))), before, changes),
                        properties, before, changes)
  {
    var pairs := Sorted(References(Object(properties)));
    var evidence := EvidenceList(pairs, before, changes);
    EntriesOk(pairs, before, changes);
    EntriesAscend(pairs, before, changes);
    forall pair | pair in References(Object(properties)) && !("AWS::" <= pair.0) && pair.0 !in before.parameters
      ensures exists e :: e in evidence && PairOf(e) == pair
    {
      assert pair in pairs;
      EntryOf(pairs, before, changes, pair);
    }
  }

  lemma {:induction false} EntriesOk(pairs: seq<Pair>, before: Template, changes: map<string, Change>)
    ensures forall e | e in EvidenceList(pairs, before, changes) :: EntryOk(e, pairs, before, changes)
  {
    if pairs != [] {
      EntriesOk(pairs[..|pairs| - 1], before, changes);
    }
  }

  lemma {:induction false} EntryOf(pairs: seq<Pair>, before: Template, changes: map<string, Change>, pair: Pair)
    requires pair in pairs && !("AWS::" <= pair.0) && pair.0 !in before.parameters
    ensures exists e :: e in EvidenceList(pairs, before, changes) && PairOf(e) == pair
  {
    var last := pairs[|pairs| - 1];
    if pair == last {
      assert EvidenceOf(last, changes) in EvidenceList(pairs, before, changes);
      assert PairOf(EvidenceOf(last, changes)) == pair;
    } else {
      EntryOf(pairs[..|pairs| - 1], before, changes, pair);
    }
  }

  lemma {:induction false} EntriesAscend(pairs: seq<Pair>, before: Template, changes: map<string, Change>)
    requires Increasing(pairs)
    ensures Ascending(EvidenceList(pairs, before, changes))
  {
    if pairs != [] {
      var front, last := pairs[..|pairs| - 1], pairs[|pairs| - 1];
      EntriesAscend(front, before, changes);
      EntriesOk(front, before, changes);
      var evidence := EvidenceList(front, before, changes);
      forall i | 0 <= i < |evidence| ensures Less(PairOf(evidence[i]), last) {
        assert evidence[i] in evidence;
        var k :| 0 <= k < |front| && front[k] == PairOf(evidence[i]);
        assert pairs[k] == front[k];
      }
      assert PairOf(EvidenceOf(last, changes)) == last;
    }
  }

  // The stack before and after: conditions and mappings come from the templates and the
  // parameters, pseudo-parameters stay.
  ghost predicate Deployed(before: Template, after: Template,
                           current: map<string, Parameter>, proposed: map<string, Proposed>, a: Stack, b: Stack) {
    && Binds(a, k => BindingBefore(current, k))
    && Binds(b, k => BindingAfter(current, proposed, k))
    && current.Keys <= proposed.Keys
    && (forall name, attribute | StartsWith(name, "AWS::") ::
          Lookup(a, (name, attribute)) == Lookup(b, (name, attribute)))
    && (forall name | name in before.parameters :: name in a.parameters)
    && a.mappings == before.mappings && b.mappings == after.mappings && a.compute == b.compute
    && (before.conditions == after.conditions && a.mappings == b.mappings && SameParameters(a, b) ==>
          forall c :: a.condition(c) == b.condition(c))
  }

  ghost predicate SameParameters(a: Stack, b: Stack) {
    forall k | !StartsWith(k, "AWS::") ::
      (k in a.parameters <==> k in b.parameters) && (k in a.parameters ==> a.parameters[k] == b.parameters[k])
  }

  // What parameters stand for: the configuration they name, if any, else their own value; a
  // change set gives a value of its own or keeps the previous one, and a parameter it does
  // not list is not bound.
  lemma BindingsAre(current: map<string, Parameter>, proposed: map<string, Proposed>, k: string,
                    resolved: Option<string>, was: Option<string>, given: Option<string>)
    ensures k in current && current[k] == Parameter(was, None) ==> BindingBefore(current, k) == was
    ensures k in current && current[k] == Parameter(was, resolved) && resolved.Some? ==>
              BindingBefore(current, k) == resolved
    ensures k !in current ==> BindingBefore(current, k) == None
    ensures k in proposed && proposed[k] == Proposed(false, Parameter(given, None)) ==>
              BindingAfter(current, proposed, k) == given
    ensures k in proposed && k in current && current[k].value == was
            && proposed[k] == Proposed(true, Parameter(given, None)) ==>
              BindingAfter(current, proposed, k) == was
    ensures k in proposed && proposed[k].parameter.resolved == resolved && resolved.Some? ==>
              BindingAfter(current, proposed, k) == resolved
    ensures k !in proposed ==> BindingAfter(current, proposed, k) == None
  {
  }

  lemma ParametersStay(current: map<string, Parameter>, proposed: map<string, Proposed>, k: string)
    requires ParametersChecked(current, proposed) && current.Keys <= proposed.Keys
    ensures BindingBefore(current, k) == BindingAfter(current, proposed, k)
  {
  }

  // The resources that exist and that the change set leaves alone: all their attributes stay.
  function Untouched(before: Template, after: Template, changes: map<string, Change>, physical: set<string>)
    : set<string>
  {
    set target | target in before.resources && target in after.resources && target in physical && target !in changes
                 && before.resources[target] == after.resources[target]
  }

  // Whenever the checks pass, the proof is given and attribute names are computed only
  // for untouched resources, the properties of the resource have the same value before
  // and after.
  lemma {:induction false} ProofIsSound(logical: string, action: string, before: Template, after: Template,
                     changes: map<string, Change>, physical: set<string>,
                     current: map<string, Parameter>, proposed: map<string, Proposed>, a: Stack, b: Stack)
    requires ParametersChecked(current, proposed) && Deployed(before, after, current, proposed, a, b)
    requires KeepsAttributes(before, after, changes, physical, a, b)
    requires Proven(logical, action, before, after, changes, physical)
    requires ComputedOnlyOf(Object(after.resources[logical].properties), Untouched(before, after, changes, physical))
    ensures Eval(a, Object(before.resources[logical].properties))
         == Eval(b, Object(after.resources[logical].properties))
  {
    var v := Object(after.resources[logical].properties);
    SameBindings(before, after, current, proposed, a, b);
    CollectorCovers(a, v, Untouched(before, after, changes, physical));
    forall pair | pair in Reads(a, v) ensures Lookup(a, pair) == Lookup(b, pair) {
      if StartsWith(pair.0, "AWS::") {
        assert pair == (pair.0, pair.1);
      } else if pair.0 in a.parameters {
        assert b.parameters[pair.0] == a.parameters[pair.0];
      } else {
        assert pair in Needed(after.resources[logical].properties, before)
               || pair.0 in Untouched(before, after, changes, physical);
        SameAttribute(pair, before, after, changes, physical, a, b);
      }
    }
    Coincidence(a, b, v);
  }

  lemma SameBindings(before: Template, after: Template,
                     current: map<string, Parameter>, proposed: map<string, Proposed>, a: Stack, b: Stack)
    requires ParametersChecked(current, proposed) && Deployed(before, after, current, proposed, a, b)
    ensures SameParameters(a, b)
  {
    forall k | !StartsWith(k, "AWS::")
      ensures k in a.parameters <==> k in b.parameters
      ensures k in a.parameters ==> a.parameters[k] == b.parameters[k]
    {
      ParametersStay(current, proposed, k);
    }
  }

  lemma SameAttribute(pair: Pair, before: Template, after: Template, changes: map<string, Change>,
                      physical: set<string>, a: Stack, b: Stack)
    requires KeepsAttributes(before, after, changes, physical, a, b)
    requires pair.0 in Untouched(before, after, changes, physical) || Explained(pair, before, after, changes, physical)
    ensures a.attributes(pair) == b.attributes(pair)
  {
    assert pair == (pair.0, pair.1);
    ExplainedIff(pair, before, after, changes, physical);
  }

  /******* A computed attribute name *******/

  // The condition on computed names cannot be dropped.  In this family of templates the
  // only listed reference is an unchanged bucket, so evidence is given; a second bucket
  // gets another name and is replaced, and the value moves with it, because a computed
  // attribute name hides it from the collector.
  function Ref(name: string): Json {
    Object(map["Ref" := Text(name)])
  }

  function ComputedGetAtt(resource: string, name: string): Json {
    Object(map["Fn::GetAtt" := List([Text(resource), Ref(name)])])
  }

  // The names of a member of the family.
  datatype Names = Names(user: string, field: string, hidden: string, parameter: string, bucket: string, tag: string)

  predicate Distinct(n: Names) {
    && n.user != n.hidden && n.user != n.bucket && n.hidden != n.bucket
    && n.bucket != n.parameter && n.hidden != n.parameter && n.tag != "Ref"
    && !StartsWith(n.bucket, "AWS::") && !StartsWith(n.hidden, "AWS::") && !StartsWith(n.parameter, "AWS::")
    && n.field != "Ref" && n.field != "Fn::GetAtt" && n.field != "Fn::Sub" && !StartsWith(n.field, "Fn::")
  }

  function UserProperties(n: Names): map<string, Json> {
    map[n.field := List([ComputedGetAtt(n.hidden, n.parameter), Ref(n.bucket)])]
  }

  function Bucket(name: string): Resource {
    Resource("AWS::S3::Bucket", map["BucketName" := Text(name)], None, map[])
  }

  // The templates differ in the name of the hidden bucket.
  function Renamed(n: Names, name: string): Template {
    var user := Resource("AWS::Lambda::Function", UserProperties(n), None, map[]);
    Template({n.parameter}, Null, Null, map[n.user := user, n.bucket := Bucket("kept"), n.hidden := Bucket(name)])
  }

  // The change set modifies the hidden bucket, by whatever replacement it says, and lists
  // the user for it.
  function Listed(n: Names, replacement: string): map<string, Change> {
    map[n.hidden := Change("Modify", replacement), n.user := Change("Modify", "Conditional")]
  }

  function Existing(n: Names): set<string> {
    {n.user, n.hidden, n.bucket}
  }

  // The parameter that holds the attribute name keeps its value.
  function NameNow(n: Names): map<string, Parameter> {
    map[n.parameter := Parameter(Some(n.tag), None)]
  }

  function NameKept(n: Names): map<string, Proposed> {
    map[n.parameter := Proposed(true, UNSET)]
  }

  function Around(n: Names, value: string): Stack {
    Stack(map[n.parameter := Text(n.tag)],
          pair => Some(Text(if pair == (n.hidden, n.tag) then value else "same")),
          _ => true, Null, (_, _, _) => None, (_, _) => None)
  }

  lemma {:induction false} SingleReferences(k: string, arg: Json)
    requires k != "Fn::Sub"
    ensures References(Object(map[k := arg])) == DirectReferences(map[k := arg]) + References(arg)
    ensures ExternalOrUnknown(Object(map[k := arg])) <==>
            (StartsWith(k, "Fn::") && k !in SUPPORTED) || ExternalOrUnknown(arg)
  {
    var fields := map[k := arg];
    assert fields.Keys == {k} && fields[k] == arg;
  }

  lemma {:induction false} PairReferences(x: Json, y: Json)
    ensures References(List([x, y])) == References(x) + References(y)
    ensures ExternalOrUnknown(List([x, y])) <==> ExternalOrUnknown(x) || ExternalOrUnknown(y)
  {
    assert List([x, y]).items[0] == x && List([x, y]).items[1] == y;
  }

  lemma {:induction false} RefMeans(stack: Stack, name: string)
    ensures Eval(stack, Ref(name)) == Lookup(stack, (name, "Ref"))
    ensures References(Ref(name)) == {(name, "Ref")} && !ExternalOrUnknown(Ref(name))
  {
    CallMeans(stack, "Ref", Text(name));
    SingleReferences("Ref", Text(name));
    assert map["Ref" := Text(name)].Keys == {"Ref"};
    assert {"Ref"} != {"Fn::GetAtt"} by { assert "Ref" !in {"Fn::GetAtt"}; }
  }

  lemma {:induction false} ComputedMeans(stack: Stack, resource: string, name: string, tag: string)
    requires Lookup(stack, (name, "Ref")) == Some(Text(tag))
    ensures Eval(stack, ComputedGetAtt(resource, name)) == Lookup(stack, (resource, tag))
  {
    CallMeans(stack, "Fn::GetAtt", List([Text(resource), Ref(name)]));
    assert Ref(name).fields.Keys == {"Ref"};
  }

  lemma {:induction false} ComputedStays(resource: string, name: string, stable: set<string>)
    ensures ComputedOnlyOf(ComputedGetAtt(resource, name), stable) <==> resource in stable
  {
    CallMeans(Uniform(""), "Fn::GetAtt", List([Text(resource), Ref(name)]));
    assert Ref(name).fields.Keys == {"Ref"};
  }

  lemma ComputedReferences(resource: string, name: string)
    ensures References(ComputedGetAtt(resource, name)) == {(name, "Ref")}
    ensures !ExternalOrUnknown(ComputedGetAtt(resource, name))
  {
    var arg := List([Text(resource), Ref(name)]);
    SingleReferences("Fn::GetAtt", arg);
    PairReferences(Text(resource), Ref(name));
    RefMeans(Uniform(""), name);
    assert GetAttTarget(arg) == None;
  }

  lemma PlainField(k: string, arg: Json)
    requires k != "Ref" && !StartsWith(k, "Fn::")
    ensures IntrinsicOf(map[k := arg]) == None && map[k := arg].Keys == {k}
  {
    assert map[k := arg].Keys == {k};
  }

  lemma {:induction false} PairMeans(stack: Stack, x: Json, y: Json)
    requires Eval(stack, x).Some? && Eval(stack, y).Some?
    ensures Eval(stack, List([x, y])) == Some(List([Eval(stack, x).value, Eval(stack, y).value]))
  {
    var list := List([x, y]);
    assert list.items[0] == x && list.items[1] == y;
    assert Eval(stack, list).value.items == [Eval(stack, x).value, Eval(stack, y).value];
  }

  lemma {:induction false} PlainMeans(stack: Stack, k: string, arg: Json)
    requires k != "Ref" && !StartsWith(k, "Fn::") && Eval(stack, arg).Some?
    ensures Eval(stack, Object(map[k := arg])) == Some(Object(map[k := Eval(stack, arg).value]))
  {
    var fields := map[k := arg];
    PlainField(k, arg);
    assert fields[k] == arg;
    assert EvalFields(stack, fields, Object(fields)).Some?;
    assert EvalFields(stack, fields, Object(fields)).value.fields == map[k := Eval(stack, arg).value];
  }

  lemma {:induction false} PlainStays(k: string, x: Json, y: Json, stable: set<string>)
    requires k != "Ref" && !StartsWith(k, "Fn::") && !ComputedOnlyOf(x, stable)
    ensures !ComputedOnlyOf(Object(map[k := List([x, y])]), stable)
  {
    PlainField(k, List([x, y]));
    assert List([x, y]).items[0] == x;
    assert !ComputedOnlyOf(List([x, y]), stable);
    assert map[k := List([x, y])][k] == List([x, y]);
  }

  lemma {:induction false} PlainReferences(k: string, arg: Json)
    requires k != "Ref" && k != "Fn::GetAtt" && k != "Fn::Sub" && !StartsWith(k, "Fn::")
    ensures References(Object(map[k := arg])) == References(arg)
    ensures ExternalOrUnknown(Object(map[k := arg])) <==> ExternalOrUnknown(arg)
  {
    SingleReferences(k, arg);
    assert map[k := arg].Keys == {k} && k !in {"Ref"} && k !in {"Fn::GetAtt"};
  }

  lemma UserMeans(n: Names, value: string)
    requires Distinct(n)
    ensures Eval(Around(n, value), Object(UserProperties(n))) ==
            Some(Object(map[n.field := List([Text(value), Text("same")])]))
  {
    var stack := Around(n, value);
    HiddenMeans(n, value);
    RefMeans(stack, n.bucket);
    assert Eval(stack, Ref(n.bucket)) == Some(Text("same"));
    PairMeans(stack, ComputedGetAtt(n.hidden, n.parameter), Ref(n.bucket));
    PlainMeans(stack, n.field, List([ComputedGetAtt(n.hidden, n.parameter), Ref(n.bucket)]));
  }

  lemma HiddenMeans(n: Names, value: string)
    requires Distinct(n)
    ensures Eval(Around(n, value), ComputedGetAtt(n.hidden, n.parameter)) == Some(Text(value))
  {
    ComputedMeans(Around(n, value), n.hidden, n.parameter, n.tag);
  }

  lemma UserReferences(n: Names)
    requires Distinct(n)
    ensures References(Object(UserProperties(n))) == {(n.parameter, "Ref"), (n.bucket, "Ref")}
    ensures !ExternalOrUnknown(Object(UserProperties(n)))
  {
    ComputedReferences(n.hidden, n.parameter);
    RefMeans(Uniform(""), n.bucket);
    PairReferences(ComputedGetAtt(n.hidden, n.parameter), Ref(n.bucket));
    PlainReferences(n.field, List([ComputedGetAtt(n.hidden, n.parameter), Ref(n.bucket)]));
  }

  lemma ComputedAttributeIsMissed(n: Names, name: string, newName: string, replacement: string,
                                  one: string, other: string)
    requires Distinct(n) && name != newName && one != other
    ensures var (before, after, changes) := (Renamed(n, name), Renamed(n, newName), Listed(n, replacement));
            var (a, b, v) := (Around(n, one), Around(n, other), Object(UserProperties(n)));
            var physical := Existing(n);
            && ParametersChecked(NameNow(n), NameKept(n))
            && Deployed(before, after, NameNow(n), NameKept(n), a, b)
            && KeepsAttributes(before, after, changes, physical, a, b)
            && Proven(n.user, "Modify", before, after, changes, physical)
            && !ComputedOnlyOf(v, Untouched(before, after, changes, physical))
            && Eval(a, v) != Eval(b, v)
  {
    UserMeans(n, one);
    UserMeans(n, other);
    assert map[n.field := List([Text(one), Text("same")])][n.field].items[0] == Text(one);
    FamilyDeployed(n, name, newName, one, other);
    FamilyKeeps(n, name, newName, replacement, one, other);
    FamilyProven(n, name, newName, replacement);
    ComputedStays(n.hidden, n.parameter,
                  Untouched(Renamed(n, name), Renamed(n, newName), Listed(n, replacement), Existing(n)));
    PlainStays(n.field, ComputedGetAtt(n.hidden, n.parameter), Ref(n.bucket),
               Untouched(Renamed(n, name), Renamed(n, newName), Listed(n, replacement), Existing(n)));
  }

  lemma FamilyDeployed(n: Names, name: string, newName: string, one: string, other: string)
    requires Distinct(n)
    ensures ParametersChecked(NameNow(n), NameKept(n))
    ensures Deployed(Renamed(n, name), Renamed(n, newName), NameNow(n), NameKept(n), Around(n, one), Around(n, other))
  {
  }

  lemma FamilyKeeps(n: Names, name: string, newName: string, replacement: string, one: string, other: string)
    requires Distinct(n) && name != newName
    ensures KeepsAttributes(Renamed(n, name), Renamed(n, newName), Listed(n, replacement), Existing(n),
                            Around(n, one), Around(n, other))
  {
    assert "BucketName" in IdentityFields("AWS::S3::Bucket").value;
    assert Get(Bucket(name).properties, "BucketName") != Get(Bucket(newName).properties, "BucketName");
  }

  lemma FamilyProven(n: Names, name: string, newName: string, replacement: string)
    requires Distinct(n)
    ensures Proven(n.user, "Modify", Renamed(n, name), Renamed(n, newName), Listed(n, replacement), Existing(n))
  {
    UserReferences(n);
    var (before, after) := (Renamed(n, name), Renamed(n, newName));
    assert Needed(after.resources[n.user].properties, before) == {(n.bucket, "Ref")};
    assert Explained((n.bucket, "Ref"), before, after, Listed(n, replacement), Existing(n));
  }
}
