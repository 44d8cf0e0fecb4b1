/**
 What the artifact binder accepts, in terms of the messages, the outputs and the numbers of
 the operation alone.
 */
module BinderRules {
  import opened Basics
  import opened CoreAdapter
  import opened ArtifactBinding

  /** Exactly the declared outputs, none of them empty or too long, and not too long together. */
  ghost predicate OutputsWell(outputs: Outputs, dependencies: seq<string>) {
    && (forall d :: d in outputs <==> d in dependencies)
    && (forall d :: d in outputs ==> 1 <= |outputs[d]| <= 250000)
    && Together(outputs, dependencies) <= 750000
  }

  /** The outputs one after another. */
  function Together(outputs: Outputs, dependencies: seq<string>): nat {
    if dependencies == [] then 0
    else (if dependencies[0] in outputs then |outputs[dependencies[0]]| else 0) + Together(outputs, dependencies[1..])
  }

  lemma {:induction false} TogetherSnoc(outputs: Outputs, dependencies: seq<string>, d: string)
    ensures Together(outputs, dependencies + [d])
            == Together(outputs, dependencies) + (if d in outputs then |outputs[d]| else 0)
  {
    if dependencies == [] {
      assert [] + [d] == [d];
    } else {
      assert (dependencies + [d])[1..] == dependencies[1..] + [d];
      TogetherSnoc(outputs, dependencies[1..], d);
    }
  }

  lemma {:induction false} LengthsTogether(outputs: Outputs, dependencies: seq<string>)
    requires forall d :: d in dependencies ==> d in outputs
    ensures Lengths(outputs, dependencies) == Together(outputs, dependencies)
  {
    if dependencies != [] {
      var n := |dependencies| - 1;
      LengthsTogether(outputs, dependencies[..n]);
      TogetherSnoc(outputs, dependencies[..n], dependencies[n]);
      assert dependencies == dependencies[..n] + [dependencies[n]];
    }
  }

  lemma OutputsDecided(outputs: Outputs, dependencies: seq<string>)
    ensures OutputsAdmitted(outputs, dependencies) <==> OutputsWell(outputs, dependencies)
  {
    if forall d :: d in dependencies ==> d in outputs { LengthsTogether(outputs, dependencies); }
  }

  /** The system messages are the server's own, and there is one binding for every dependency. */
  predicate Genuine(t: Trusted, op: CoreOperation) {
    && |op.messages| >= 4 && op.messages[0] == t.identity && op.messages[1] == t.provenance
    && |op.bindings| == |op.dependencies|
  }

  /** The bound messages, counted again, fit the reservation and the context. */
  predicate Recounted(t: Trusted, op: CoreOperation, bound: seq<Message>) {
    && 1 <= t.counter(bound) && t.counter(bound) <= op.maximumInput
    && op.maximumOutput <= t.context - t.counter(bound)
  }

  /** Binding `b` names an output and an assistant message in which its placeholder stands exactly once. */
  ghost predicate Stands(op: CoreOperation, outputs: Outputs, b: Binding) {
    && b.source in outputs && 0 <= b.target < |op.messages| && op.messages[b.target].role == Assistant
    && exists at: nat :: OccursOnly(op.messages[b.target].content, b.placeholder, at)
  }

  /** `bound` is `op.messages` with every named message rewritten, and no trace of a placeholder left. */
  ghost predicate Rewrites(op: CoreOperation, outputs: Outputs, bound: seq<Message>) {
    && |bound| == |op.messages|
    && (forall t :: 0 <= t < |bound| && (forall k :: 0 <= k < |op.bindings| ==> op.bindings[k].target != t) ==>
          bound[t] == op.messages[t])
    && (forall k :: 0 <= k < |op.bindings| && Stands(op, outputs, op.bindings[k]) ==>
          Rewritten(op, outputs, op.bindings[k], bound))
    && forall t, at :: 0 <= t < |bound| && 0 <= at ==> !OccursAt(bound[t].content, "{{server_stage_output:", at)
  }

  /** The output stands where the placeholder stood. */
  ghost predicate Rewritten(op: CoreOperation, outputs: Outputs, b: Binding, bound: seq<Message>)
    requires b.source in outputs && 0 <= b.target < |op.messages| == |bound|
  {
    var text := op.messages[b.target].content;
    && bound[b.target].role == Assistant
    && forall at: nat :: OccursOnly(text, b.placeholder, at) ==>
         bound[b.target].content == text[..at] + outputs[b.source] + text[at + |b.placeholder|..]
  }

  /** Everything the binder asks for, and the request it makes of it. */
  ghost predicate Binds(op: CoreOperation, t: Trusted, outputs: Outputs, bound: seq<Message>) {
    && OutputsWell(outputs, op.dependencies) && Genuine(t, op)
    && (forall k :: 0 <= k < |op.bindings| ==> Stands(op, outputs, op.bindings[k]))
    && (forall j, k :: 0 <= j < k < |op.bindings| ==> op.bindings[j].target != op.bindings[k].target)
    && Rewrites(op, outputs, bound) && Recounted(t, op, bound)
  }

  lemma BindingDecided(op: CoreOperation, outputs: Outputs, b: Binding)
    ensures BindingFits(op.messages, outputs, b) <==> Stands(op, outputs, b)
  {
    if b.source in outputs && 0 <= b.target < |op.messages| {
      ReplacementExact(op.messages[b.target].content, b.placeholder, outputs[b.source]);
    }
  }

  lemma RewritingDecided(op: CoreOperation, outputs: Outputs, b: Binding, bound: seq<Message>)
    requires Stands(op, outputs, b) && BindingFits(op.messages, outputs, b) && |bound| == |op.messages|
    ensures bound[b.target] == BoundMessage(op.messages, outputs, b) <==> Rewritten(op, outputs, b, bound)
  {
    RespellingDecided(op.messages[b.target].content, b.placeholder, outputs[b.source], bound[b.target].content);
  }

  /** The text with its one placeholder replaced. */
  lemma RespellingDecided(text: string, needle: string, artifact: string, result: string)
    requires exists at: nat :: OccursOnly(text, needle, at)
    ensures result == ReplaceFirst(text, needle, artifact) <==>
            forall at: nat :: OccursOnly(text, needle, at) ==> result == text[..at] + artifact + text[at + |needle|..]
  {
    ReplacementExact(text, needle, artifact);
    var at: nat :| OccursOnly(text, needle, at);
    assert ReplaceFirst(text, needle, artifact) == text[..at] + artifact + text[at + |needle|..];
  }

  lemma SubstitutionDecided(op: CoreOperation, outputs: Outputs, bound: seq<Message>)
    requires forall k :: 0 <= k < |op.bindings| ==> Stands(op, outputs, op.bindings[k])
    ensures AllFit(op.messages, outputs, op.bindings)
    ensures Substituted(op.messages, outputs, op.bindings, bound) && NoPlaceholder(bound) <==>
            Rewrites(op, outputs, bound)
  {
    forall k | 0 <= k < |op.bindings|
      ensures BindingFits(op.messages, outputs, op.bindings[k])
      ensures |bound| == |op.messages| ==>
                (bound[op.bindings[k].target] == BoundMessage(op.messages, outputs, op.bindings[k]) <==>
                 Rewritten(op, outputs, op.bindings[k], bound))
    {
      BindingDecided(op, outputs, op.bindings[k]);
      if |bound| == |op.messages| { RewritingDecided(op, outputs, op.bindings[k], bound); }
    }
    forall t | 0 <= t < |op.messages|
      ensures !Targeted(op.bindings, t) <==> forall k :: 0 <= k < |op.bindings| ==> op.bindings[k].target != t
    {
    }
    CleanDecided(bound);
  }

  lemma CleanDecided(bound: seq<Message>)
    ensures NoPlaceholder(bound) <==>
            forall t, at :: 0 <= t < |bound| && 0 <= at ==> !OccursAt(bound[t].content, "{{server_stage_output:", at)
  {
    forall t, at | 0 <= t < |bound| && 0 <= at && OccursAt(bound[t].content, "{{server_stage_output:", at)
      ensures Contains(bound[t].content, PLACEHOLDER_PREFIX)
    {
      assert OccursAt(bound[t].content, PLACEHOLDER_PREFIX, at);
    }
  }

  /** The binder's checks and substitution are exactly these. */
  lemma BinderDecided(op: CoreOperation, t: Trusted, outputs: Outputs, bound: seq<Message>)
    ensures OutputsAdmitted(outputs, op.dependencies) && Untampered(t, op)
            && AllFit(op.messages, outputs, op.bindings) && DistinctTargets(op.bindings)
            && Substituted(op.messages, outputs, op.bindings, bound) && NoPlaceholder(bound) && CountFits(t, op, bound)
            <==> Binds(op, t, outputs, bound)
  {
    OutputsDecided(outputs, op.dependencies);
    forall k | 0 <= k < |op.bindings|
      ensures BindingFits(op.messages, outputs, op.bindings[k]) <==> Stands(op, outputs, op.bindings[k])
    {
      BindingDecided(op, outputs, op.bindings[k]);
    }
    if forall k :: 0 <= k < |op.bindings| ==> Stands(op, outputs, op.bindings[k]) {
      SubstitutionDecided(op, outputs, bound);
    }
  }
}
