/**
 Binding recorded stage outputs into a Core operation (core/adapter.py
 `bind_core_operation`): each binding overwrites one message in place, and the whole is a
 simultaneous substitution that does not depend on the order of the bindings.
 */
module ArtifactBinding {
  import opened Basics
  import opened CoreAdapter
  import C = Contracts

  const MAX_ARTIFACT_TEXT_CHARS: nat := 250_000
  const MAX_TOTAL_ARTIFACT_TEXT_CHARS: nat := 750_000

  type Outputs = map<string, string>

  // ---- str.count and str.replace ---------------------------------------------------------

  /** First occurrence at or after `from`. */
  function FirstAt(text: string, needle: string, from: nat): (at: Option<nat>)
    ensures at.Some? ==> from <= at.value && OccursAt(text, needle, at.value)
    ensures at.Some? ==> forall j :: from <= j < at.value ==> !OccursAt(text, needle, j)
    ensures at.None? ==> forall j :: from <= j ==> !OccursAt(text, needle, j)
    decreases |text| - from
  {
    if |text| < from + |needle| then None
    else if OccursAt(text, needle, from) then Some(from)
    else FirstAt(text, needle, from + 1)
  }

  /** Non-overlapping occurrences, from the left. */
  function CountFrom(text: string, needle: string, from: nat): nat
    requires needle != ""
    decreases |text| - from
  {
    match FirstAt(text, needle, from)
    case None => 0
    case Some(at) => 1 + CountFrom(text, needle, at + |needle|)
  }

  /** An empty needle occurs before, between and after all characters. */
  function Count(text: string, needle: string): nat {
    if needle == "" then |text| + 1 else CountFrom(text, needle, 0)
  }

  function ReplaceFirst(text: string, needle: string, artifact: string): string {
    match FirstAt(text, needle, 0)
    case None => text
    case Some(at) => text[..at] + artifact + text[at + |needle|..]
  }

  // ---- one binding -------------------------------------------------------------------------

  /** The checks on one binding against the message it names. */
  predicate BindingFits(messages: seq<Message>, outputs: Outputs, b: Binding) {
    && b.source in outputs
    && 0 <= b.target < |messages|
    && messages[b.target].role.Assistant?
    && Count(messages[b.target].content, b.placeholder) == 1
  }

  function BoundMessage(messages: seq<Message>, outputs: Outputs, b: Binding): Message
    requires BindingFits(messages, outputs, b)
  {
    Message(Assistant, ReplaceFirst(messages[b.target].content, b.placeholder, outputs[b.source]))
  }

  // ---- the simultaneous substitution -----------------------------------------------------------

  predicate DistinctTargets(bindings: seq<Binding>) {
    forall i, j :: 0 <= i < j < |bindings| ==> bindings[i].target != bindings[j].target
  }

  predicate AllFit(messages: seq<Message>, outputs: Outputs, bindings: seq<Binding>) {
    forall i :: 0 <= i < |bindings| ==> BindingFits(messages, outputs, bindings[i])
  }

  /** Some binding names message `t`. */
  predicate Targeted(bindings: seq<Binding>, t: int) {
    exists i :: 0 <= i < |bindings| && bindings[i].target == t
  }

  /** Every target is its own template with its own artifact; every other message is unchanged. */
  ghost predicate Substituted(messages: seq<Message>, outputs: Outputs, bindings: seq<Binding>, bound: seq<Message>)
    requires AllFit(messages, outputs, bindings)
  {
    && |bound| == |messages|
    && (forall i :: 0 <= i < |bindings| ==> bound[bindings[i].target] == BoundMessage(messages, outputs, bindings[i]))
    && (forall t :: 0 <= t < |messages| && !Targeted(bindings, t) ==> bound[t] == messages[t])
  }

  predicate NoPlaceholder(messages: seq<Message>) {
    forall i :: 0 <= i < |messages| ==> !Contains(messages[i].content, PLACEHOLDER_PREFIX)
  }

  /** The checks on one binding, and the overwritten content of its target. */
  method BindOne(messages: seq<Message>, outputs: Outputs, b: Binding, ghost template: seq<Message>)
    returns (message: Option<Message>)
    requires |messages| == |template| && (0 <= b.target < |messages| ==> messages[b.target] == template[b.target])
    ensures message == if BindingFits(template, outputs, b) then Some(BoundMessage(template, outputs, b)) else None
  {
    if b.source !in outputs || !(0 <= b.target < |messages|) { return None; }
    var target := messages[b.target];
    if !target.role.Assistant? || Count(target.content, b.placeholder) != 1 { return None; }
    return Some(Message(Assistant, ReplaceFirst(target.content, b.placeholder, outputs[b.source])));
  }

  /** `target_index in bound_targets`, after the first `k` bindings. */
  predicate AlreadyBound(bindings: seq<Binding>, k: nat)
    requires k < |bindings|
  {
    exists i :: 0 <= i < k && bindings[i].target == bindings[k].target
  }

  /** The first `k` bindings have been applied. */
  ghost predicate BoundUpTo(messages: seq<Message>, outputs: Outputs, bindings: seq<Binding>, k: nat,
                            current: seq<Message>)
    requires k <= |bindings|
  {
    && AllFit(messages, outputs, bindings[..k]) && DistinctTargets(bindings[..k])
    && Substituted(messages, outputs, bindings[..k], current)
  }

  /** The loop over the bindings, overwriting message contents one after another. */
  method BindAll(messages: seq<Message>, outputs: Outputs, bindings: seq<Binding>) returns (bound: Option<seq<Message>>)
    ensures bound.Some? <==> AllFit(messages, outputs, bindings) && DistinctTargets(bindings)
    ensures bound.Some? ==> Substituted(messages, outputs, bindings, bound.value)
  {
    var current := messages;
    NoneBound(messages, outputs, bindings);
    for k := 0 to |bindings|
      invariant BoundUpTo(messages, outputs, bindings, k, current)
    {
      var next := BindNext(messages, outputs, bindings, k, current);
      if next.None? { return None; }
      current := next.value;
    }
    AllBound(messages, outputs, bindings, current);
    return Some(current);
  }

  /** One round of the loop: the next binding applied, or a reason to refuse all of them. */
  method BindNext(messages: seq<Message>, outputs: Outputs, bindings: seq<Binding>, k: nat, current: seq<Message>)
    returns (next: Option<seq<Message>>)
    requires k < |bindings| && BoundUpTo(messages, outputs, bindings, k, current)
    ensures next.None? ==> !AllFit(messages, outputs, bindings) || !DistinctTargets(bindings)
    ensures next.Some? ==> BoundUpTo(messages, outputs, bindings, k + 1, next.value)
  {
    if AlreadyBound(bindings, k) {
      RepeatedTarget(bindings, k);
      return None;
    }
    Untouched(messages, outputs, bindings, k, current);
    var message := BindOne(current, outputs, bindings[k], messages);
    if message.None? {
      Misfit(messages, outputs, bindings, k);
      return None;
    }
    SubstituteOne(messages, outputs, bindings, k, current, message.value);
    return Some(current[bindings[k].target := message.value]);
  }

  lemma NoneBound(messages: seq<Message>, outputs: Outputs, bindings: seq<Binding>)
    ensures BoundUpTo(messages, outputs, bindings, 0, messages)
  {
  }

  lemma AllBound(messages: seq<Message>, outputs: Outputs, bindings: seq<Binding>, bound: seq<Message>)
    requires BoundUpTo(messages, outputs, bindings, |bindings|, bound)
    ensures AllFit(messages, outputs, bindings) && DistinctTargets(bindings)
    ensures Substituted(messages, outputs, bindings, bound)
  {
    assert bindings[..|bindings|] == bindings;
  }

  lemma Misfit(messages: seq<Message>, outputs: Outputs, bindings: seq<Binding>, k: nat)
    requires k < |bindings| && !BindingFits(messages, outputs, bindings[k])
    ensures !AllFit(messages, outputs, bindings)
  {
  }

  lemma RepeatedTarget(bindings: seq<Binding>, k: nat)
    requires k < |bindings| && AlreadyBound(bindings, k)
    ensures !DistinctTargets(bindings)
  {
  }

  /** A target not bound yet still holds its template. */
  lemma Untouched(messages: seq<Message>, outputs: Outputs, bindings: seq<Binding>, k: nat, current: seq<Message>)
    requires k < |bindings| && BoundUpTo(messages, outputs, bindings, k, current) && !AlreadyBound(bindings, k)
    ensures |current| == |messages|
    ensures 0 <= bindings[k].target < |messages| ==> current[bindings[k].target] == messages[bindings[k].target]
  {
    var fewer := bindings[..k];
    assert forall i :: 0 <= i < |fewer| ==> fewer[i].target != bindings[k].target;
  }

  lemma SubstituteOne(messages: seq<Message>, outputs: Outputs, bindings: seq<Binding>, k: nat, current: seq<Message>,
                      message: Message)
    requires k < |bindings| && BoundUpTo(messages, outputs, bindings, k, current) && !AlreadyBound(bindings, k)
    requires BindingFits(messages, outputs, bindings[k]) && message == BoundMessage(messages, outputs, bindings[k])
    ensures BoundUpTo(messages, outputs, bindings, k + 1, current[bindings[k].target := message])
  {
    var next := current[bindings[k].target := message];
    var fewer, more := bindings[..k], bindings[..k + 1];
    forall i | 0 <= i < k ensures more[i] == fewer[i] {}
    forall i | 0 <= i < |more| ensures next[more[i].target] == BoundMessage(messages, outputs, more[i]) {
      if i < k { assert more[i] == fewer[i]; }
    }
    forall t | Targeted(fewer, t) ensures Targeted(more, t) {
      var i :| 0 <= i < k && fewer[i].target == t;
      assert more[i].target == t;
    }
    assert more[k].target == bindings[k].target;
    assert Targeted(more, bindings[k].target);
  }

  /** A simultaneous substitution is unique. */
  lemma SubstitutionUnique(messages: seq<Message>, outputs: Outputs, b1: seq<Binding>, b2: seq<Binding>,
                           first: seq<Message>, second: seq<Message>)
    requires AllFit(messages, outputs, b1) && AllFit(messages, outputs, b2)
    requires forall b :: b in b1 <==> b in b2
    requires Substituted(messages, outputs, b1, first) && Substituted(messages, outputs, b2, second)
    ensures first == second
  {
    forall t | 0 <= t < |messages| ensures first[t] == second[t] {
      if Targeted(b1, t) {
        var i :| 0 <= i < |b1| && b1[i].target == t;
        assert b1[i] in b2;
        var j :| 0 <= j < |b2| && b2[j] == b1[i];
        assert second[b2[j].target] == BoundMessage(messages, outputs, b2[j]);
      } else {
        TargetedAlike(b1, b2, t);
      }
    }
  }

  lemma TargetedAlike(b1: seq<Binding>, b2: seq<Binding>, t: int)
    requires forall b :: b in b1 <==> b in b2
    ensures Targeted(b2, t) ==> Targeted(b1, t)
  {
    if Targeted(b2, t) {
      var j :| 0 <= j < |b2| && b2[j].target == t;
      assert b2[j] in b1;
    }
  }

  lemma {:induction false} CountsOfDistinct(bindings: seq<Binding>)
    requires DistinctTargets(bindings)
    ensures forall b :: multiset(bindings)[b] <= 1
  {
    if bindings != [] {
      var n := |bindings| - 1;
      CountsOfDistinct(bindings[..n]);
      assert bindings == bindings[..n] + [bindings[n]];
      forall b ensures multiset(bindings)[b] <= 1 {
        if b == bindings[n] {
          assert b !in bindings[..n];
        }
      }
    }
  }

  lemma CountsOfRepeated(bindings: seq<Binding>, i: nat, j: nat)
    requires i < j < |bindings| && bindings[i] == bindings[j]
    ensures multiset(bindings)[bindings[i]] >= 2
  {
    assert bindings == bindings[..j] + bindings[j..];
    assert bindings[..j][i] == bindings[i] && bindings[j..][0] == bindings[j];
    assert bindings[i] in multiset(bindings[..j]) && bindings[i] in multiset(bindings[j..]);
  }

  lemma SameMembers(b1: seq<Binding>, b2: seq<Binding>)
    requires multiset(b1) == multiset(b2)
    ensures forall b :: b in b1 <==> b in b2
  {
    forall b ensures b in b1 <==> b in b2 {
      assert b in b1 <==> b in multiset(b1);
      assert b in b2 <==> b in multiset(b2);
    }
  }

  lemma DistinctAfterReorder(b1: seq<Binding>, b2: seq<Binding>)
    requires multiset(b1) == multiset(b2) && DistinctTargets(b1)
    ensures DistinctTargets(b2)
  {
    SameMembers(b1, b2);
    CountsOfDistinct(b1);
    forall i, j | 0 <= i < j < |b2| ensures b2[i].target != b2[j].target {
      if b2[i] == b2[j] { CountsOfRepeated(b2, i, j); }
      assert b2[i] in b1 && b2[j] in b1;
    }
  }

  /**
   Reordering the bindings changes neither acceptance nor the result: whatever two runs of
   the loop return for two orders of the same bindings, they return the same.
   */
  lemma OrderIrrelevant(messages: seq<Message>, outputs: Outputs, b1: seq<Binding>, b2: seq<Binding>,
                        first: Option<seq<Message>>, second: Option<seq<Message>>)
    requires multiset(b1) == multiset(b2)
    requires first.Some? <==> AllFit(messages, outputs, b1) && DistinctTargets(b1)
    requires second.Some? <==> AllFit(messages, outputs, b2) && DistinctTargets(b2)
    requires first.Some? ==> Substituted(messages, outputs, b1, first.value)
    requires second.Some? ==> Substituted(messages, outputs, b2, second.value)
    ensures first == second
  {
    SameMembers(b1, b2);
    AllFitMembers(messages, outputs, b1, b2);
    if DistinctTargets(b1) { DistinctAfterReorder(b1, b2); }
    if DistinctTargets(b2) { DistinctAfterReorder(b2, b1); }
    if first.Some? {
      SubstitutionUnique(messages, outputs, b1, b2, first.value, second.value);
    }
  }

  lemma AllFitMembers(messages: seq<Message>, outputs: Outputs, b1: seq<Binding>, b2: seq<Binding>)
    requires forall b :: b in b1 <==> b in b2
    ensures AllFit(messages, outputs, b1) <==> AllFit(messages, outputs, b2)
  {
    forall i | 0 <= i < |b2| && AllFit(messages, outputs, b1) ensures BindingFits(messages, outputs, b2[i]) {
      assert b2[i] in b1;
    }
    forall i | 0 <= i < |b1| && AllFit(messages, outputs, b2) ensures BindingFits(messages, outputs, b1[i]) {
      assert b1[i] in b2;
    }
  }

  /** The needle stands at `at`, nowhere before, and nowhere behind its end. */
  ghost predicate OccursOnly(text: string, needle: string, at: nat) {
    && OccursAt(text, needle, at)
    && forall j :: 0 <= j && OccursAt(text, needle, j) ==> j == at || at < j < at + |needle|
  }

  /**
   The count check says that there is one place to replace; the bound template is then what
   stood before that place, the artifact, and what stood after it.
   */
  lemma ReplacementExact(text: string, needle: string, artifact: string)
    ensures Count(text, needle) == 1 <==> exists at: nat :: OccursOnly(text, needle, at)
    ensures forall at: nat :: OccursOnly(text, needle, at) ==>
              ReplaceFirst(text, needle, artifact) == text[..at] + artifact + text[at + |needle|..]
  {
    forall at: nat | OccursOnly(text, needle, at) ensures FirstAt(text, needle, 0) == Some(at) {
      assert OccursAt(text, needle, at);
    }
    if Count(text, needle) == 1 { OnlyWhenOne(text, needle); }
    if exists at: nat :: OccursOnly(text, needle, at) {
      var at: nat :| OccursOnly(text, needle, at);
      OneWhenOnly(text, needle, at);
    }
  }

  lemma OnlyWhenOne(text: string, needle: string)
    requires Count(text, needle) == 1
    ensures exists at: nat :: OccursOnly(text, needle, at)
  {
    if needle == "" {
      assert OccursOnly(text, needle, 0);
    } else {
      var at := FirstAt(text, needle, 0).value;
      assert Count(text, needle) == 1 + CountFrom(text, needle, at + |needle|);
      assert FirstAt(text, needle, at + |needle|).None?;
      assert OccursOnly(text, needle, at);
    }
  }

  lemma OneWhenOnly(text: string, needle: string, at: nat)
    requires OccursOnly(text, needle, at)
    ensures Count(text, needle) == 1
  {
    if needle == "" {
      assert OccursAt(text, needle, 0) && OccursAt(text, needle, |text|);
    } else {
      assert FirstAt(text, needle, 0) == Some(at);
      assert FirstAt(text, needle, at + |needle|).None?;
      assert CountFrom(text, needle, at + |needle|) == 0;
      assert CountFrom(text, needle, 0) == 1 + CountFrom(text, needle, at + |needle|);
    }
  }

  // ---- bind_core_operation ---------------------------------------------------------------------

  function Lengths(outputs: Outputs, dependencies: seq<string>): nat
    requires forall d :: d in dependencies ==> d in outputs
  {
    if dependencies == [] then 0
    else Lengths(outputs, dependencies[..|dependencies| - 1]) + |outputs[dependencies[|dependencies| - 1]]|
  }

  /** Exactly the declared dependencies, each with a bounded, non-empty text. */
  predicate OutputsAdmitted(outputs: Outputs, dependencies: seq<string>) {
    && (forall d | d in dependencies :: d in outputs && 0 < |outputs[d]| <= MAX_ARTIFACT_TEXT_CHARS)
    && (forall d | d in outputs.Keys :: d in dependencies)
    && Lengths(outputs, dependencies) <= MAX_TOTAL_ARTIFACT_TEXT_CHARS
  }

  /** The source's check of the recorded outputs, one dependency at a time. */
  method CheckOutputs(outputs: Outputs, dependencies: seq<string>) returns (ok: bool)
    ensures ok <==> OutputsAdmitted(outputs, dependencies)
  {
    if exists d | d in dependencies :: d !in outputs { return false; }
    if exists d | d in outputs.Keys :: d !in dependencies { return false; }
    var total := 0;
    for i := 0 to |dependencies|
      invariant forall d :: d in dependencies[..i] ==> 0 < |outputs[d]| <= MAX_ARTIFACT_TEXT_CHARS
      invariant total == Lengths(outputs, dependencies[..i])
    {
      var d := dependencies[i];
      assert d in dependencies;
      assert dependencies[..i + 1][..i] == dependencies[..i] && dependencies[..i + 1] == dependencies[..i] + [d];
      if |outputs[d]| == 0 || MAX_ARTIFACT_TEXT_CHARS < |outputs[d]| { return false; }
      total := total + |outputs[d]|;
    }
    assert dependencies[..|dependencies|] == dependencies;
    return total <= MAX_TOTAL_ARTIFACT_TEXT_CHARS;
  }

  /** What the binder is given besides the outputs. */
  datatype Trusted = Trusted(identity: Message, provenance: Message, counter: seq<Message> -> int, context: int)

  predicate Untampered(t: Trusted, op: CoreOperation) {
    && TRUSTED_SYSTEM_MESSAGE_COUNT <= |op.messages|
    && op.messages[0] == t.identity && op.messages[1] == t.provenance
    && |op.bindings| == |op.dependencies|
  }

  predicate CountFits(t: Trusted, op: CoreOperation, bound: seq<Message>) {
    0 < t.counter(bound) <= op.maximumInput && t.counter(bound) + op.maximumOutput <= t.context
  }

  /**
   Success means: the outputs are exactly those declared, the result is the simultaneous
   substitution, no placeholder prefix is left anywhere, and the recount fits.
   */
  method BindCoreOperation(op: CoreOperation, t: Trusted, outputs: Outputs) returns (request: Option<seq<Message>>)
    ensures request.Some? ==>
              && OutputsAdmitted(outputs, op.dependencies) && Untampered(t, op)
              && AllFit(op.messages, outputs, op.bindings) && DistinctTargets(op.bindings)
              && Substituted(op.messages, outputs, op.bindings, request.value)
              && NoPlaceholder(request.value) && CountFits(t, op, request.value)
    ensures request.None? ==>
              !(OutputsAdmitted(outputs, op.dependencies) && Untampered(t, op)
                && AllFit(op.messages, outputs, op.bindings) && DistinctTargets(op.bindings)
                && exists bound :: Substituted(op.messages, outputs, op.bindings, bound)
                                   && NoPlaceholder(bound) && CountFits(t, op, bound))
  {
    var admitted := CheckOutputs(outputs, op.dependencies);
    if !admitted || !Untampered(t, op) { return None; }
    request := BindAll(op.messages, outputs, op.bindings);
    if request.None? { return; }
    if !NoPlaceholder(request.value) || !CountFits(t, op, request.value) {
      forall bound | Substituted(op.messages, outputs, op.bindings, bound) ensures bound == request.value {
        SubstitutionUnique(op.messages, outputs, op.bindings, op.bindings, bound, request.value);
      }
      return None;
    }
  }

  // ---- built plans can be bound ------------------------------------------------------------------

  predicate NoBrace(text: string) {
    forall i :: 0 <= i < |text| ==> text[i] != '{'
  }

  lemma HeaderNoBrace(id: string)
    requires NoBrace(id)
    ensures NoBrace(ArtifactHeader(id))
  {
    assert NoBrace(ARTIFACT_OPENING) && NoBrace(ARTIFACT_USE) && NoBrace(ARTIFACT_CAUTION);
  }

  /** A needle that starts with a brace occurs once after a text that has none. */
  lemma OnceAtEnd(header: string, needle: string, artifact: string)
    requires NoBrace(header) && needle != "" && needle[0] == '{'
    ensures Count(header + needle, needle) == 1
    ensures ReplaceFirst(header + needle, needle, artifact) == header + artifact
  {
    var content := header + needle;
    var h := |header|;
    assert content[h..h + |needle|] == needle;
    assert OccursAt(content, needle, h);
    var at := FirstAt(content, needle, 0).value;
    assert content[at..at + |needle|][0] == content[at];
    assert at == h;
    assert CountFrom(content, needle, h + |needle|) == 0;
    assert content[..h] == header && content[h + |needle|..] == "";
  }

  /** The artifact message of a built plan holds its placeholder once, at its end. */
  lemma PlaceholderOnce(id: string, artifact: string)
    requires NoBrace(id)
    ensures var content := ArtifactMessage(id).content;
            && Count(content, Placeholder(id)) == 1
            && ReplaceFirst(content, Placeholder(id), artifact) == ArtifactHeader(id) + artifact
  {
    HeaderNoBrace(id);
    assert Placeholder(id)[0] == PLACEHOLDER_PREFIX[0] == '{';
    OnceAtEnd(ArtifactHeader(id), Placeholder(id), artifact);
  }

  /** An artifact without the prefix leaves none behind. */
  lemma BoundIsClean(id: string, artifact: string)
    requires NoBrace(id) && !Contains(artifact, PLACEHOLDER_PREFIX)
    ensures !Contains(ArtifactHeader(id) + artifact, PLACEHOLDER_PREFIX)
  {
    HeaderNoBrace(id);
    var header := ArtifactHeader(id);
    var whole := header + artifact;
    forall at | 0 <= at <= |whole| ensures !OccursAt(whole, PLACEHOLDER_PREFIX, at) {
      if OccursAt(whole, PLACEHOLDER_PREFIX, at) {
        assert whole[at] == whole[at..at + |PLACEHOLDER_PREFIX|][0] == '{';
        assert whole[at..at + |PLACEHOLDER_PREFIX|] == artifact[at - |header|..at - |header| + |PLACEHOLDER_PREFIX|];
        assert OccursAt(artifact, PLACEHOLDER_PREFIX, at - |header|);
      }
    }
  }

  lemma StageIdNoBrace(kind: Kind, n: nat)
    ensures NoBrace(StageId(kind, n))
  {
    DecimalIdentifier(n);
    var id := StageId(kind, n);
    forall i | 0 <= i < |id| ensures id[i] != '{' {
      if i > |KindName(kind)| {
        assert id[i] == Decimal(n)[i - |KindName(kind)| - 1];
        assert C.IdentifierChar(id[i]);
      }
    }
  }

  /** The message that stands where the artifact message of dependency `id` stood. */
  function BoundArtifact(outputs: Outputs, id: string): Message
    requires id in outputs
  {
    Message(Assistant, ArtifactHeader(id) + outputs[id])
  }

  function BoundArtifacts(ids: seq<string>, outputs: Outputs): seq<Message>
    requires forall d :: d in ids ==> d in outputs
  {
    seq(|ids|, j requires 0 <= j < |ids| => BoundArtifact(outputs, ids[j]))
  }

  function BoundMessages(prompt: seq<Message>, ids: seq<string>, outputs: Outputs): seq<Message>
    requires forall d :: d in ids ==> d in outputs
  {
    prompt + BoundArtifacts(ids, outputs)
  }

  /** Bindings of a built operation fit its messages, and what they substitute is what one expects. */
  lemma BuiltSubstitution(prompt: seq<Message>, ids: seq<string>, outputs: Outputs)
    requires forall j :: 0 <= j < |ids| ==> NoBrace(ids[j])
    requires forall d :: d in ids ==> d in outputs
    ensures var messages, bindings := prompt + ArtifactMessages(ids), BindingsFor(ids, |prompt|);
            && AllFit(messages, outputs, bindings) && DistinctTargets(bindings)
            && Substituted(messages, outputs, bindings, BoundMessages(prompt, ids, outputs))
  {
    var messages, bindings := prompt + ArtifactMessages(ids), BindingsFor(ids, |prompt|);
    forall j | 0 <= j < |ids|
      ensures BindingFits(messages, outputs, bindings[j])
      ensures BoundMessage(messages, outputs, bindings[j]) == BoundArtifact(outputs, ids[j])
    {
      BuiltBinding(prompt, ids, outputs, j);
    }
    PromptStays(prompt, ArtifactMessages(ids), BoundArtifacts(ids, outputs), bindings);
  }

  /** Bindings that name the messages after a prompt, in order, leave the prompt alone. */
  lemma PromptStays(prompt: seq<Message>, templates: seq<Message>, bound: seq<Message>, bindings: seq<Binding>)
    requires |templates| == |bound| == |bindings|
    requires forall j :: 0 <= j < |bindings| ==> bindings[j].target == |prompt| + j
    ensures forall j :: 0 <= j < |bindings| ==> (prompt + bound)[bindings[j].target] == bound[j]
    ensures forall t :: 0 <= t < |prompt + templates| && !Targeted(bindings, t) ==>
              (prompt + bound)[t] == (prompt + templates)[t]
  {
    forall t | |prompt| <= t < |prompt + templates| ensures Targeted(bindings, t) {
      assert bindings[t - |prompt|].target == t;
    }
  }

  lemma BuiltBinding(prompt: seq<Message>, ids: seq<string>, outputs: Outputs, j: nat)
    requires j < |ids| && NoBrace(ids[j]) && ids[j] in outputs
    ensures var messages, b := prompt + ArtifactMessages(ids), BindingsFor(ids, |prompt|)[j];
            && BindingFits(messages, outputs, b)
            && BoundMessage(messages, outputs, b) == BoundArtifact(outputs, ids[j])
  {
    BuiltTarget(prompt, ids, j);
    PlaceholderOnce(ids[j], outputs[ids[j]]);
  }

  /** Where the j-th binding points. */
  lemma BuiltTarget(prompt: seq<Message>, ids: seq<string>, j: nat)
    requires j < |ids|
    ensures var messages, b := prompt + ArtifactMessages(ids), BindingsFor(ids, |prompt|)[j];
            && b.target == |prompt| + j < |messages| && messages[b.target] == ArtifactMessage(ids[j])
            && b.source == ids[j] && b.placeholder == Placeholder(ids[j])
  {
  }

  lemma BuiltClean(prompt: seq<Message>, ids: seq<string>, outputs: Outputs)
    requires forall j :: 0 <= j < |ids| ==> NoBrace(ids[j])
    requires forall d :: d in ids ==> d in outputs && !Contains(outputs[d], PLACEHOLDER_PREFIX)
    requires NoPlaceholder(prompt)
    ensures NoPlaceholder(BoundMessages(prompt, ids, outputs))
  {
    var bound := BoundMessages(prompt, ids, outputs);
    forall i | 0 <= i < |bound| ensures !Contains(bound[i].content, PLACEHOLDER_PREFIX) {
      if |prompt| <= i {
        var id := ids[i - |prompt|];
        BoundIsClean(id, outputs[id]);
        assert bound[i] == BoundArtifact(outputs, id);
      }
    }
  }

  /**
   Round trip: an operation of a built plan, given clean recorded outputs for exactly its
   dependencies, binds to the prompt followed by each header with its own output; only the
   trusted recount can still refuse it.
   */
  lemma BuiltPlansBind(r: Request, i: nat, outputs: Outputs)
    requires i < |StageNames(r.passes)| && Plan(r, StageNames(r.passes), |StageNames(r.passes)|).Some?
    requires |r.system(StageNames(r.passes)[i].kind)| == TRUSTED_SYSTEM_MESSAGE_COUNT
    requires NoPlaceholder(r.system(StageNames(r.passes)[i].kind) + r.conversation)
    requires forall d :: d in Ids(StageNames(r.passes))[..i] ==>
               d in outputs && !Contains(outputs[d], PLACEHOLDER_PREFIX)
    ensures var names := StageNames(r.passes);
            var op := Plan(r, names, |names|).value[i];
            var bound := BoundMessages(r.system(names[i].kind) + r.conversation, Ids(names)[..i], outputs);
            && op.dependencies == Ids(names)[..i]
            && AllFit(op.messages, outputs, op.bindings) && DistinctTargets(op.bindings)
            && Substituted(op.messages, outputs, op.bindings, bound) && NoPlaceholder(bound)
  {
    var names := StageNames(r.passes);
    var prompt, ids := r.system(names[i].kind) + r.conversation, Ids(names)[..i];
    PlanAt(r, names, |names|, i);
    forall j | 0 <= j < |ids| ensures NoBrace(ids[j]) {
      assert ids[j] == IdOf(names[j]);
      StageIdNoBrace(names[j].kind, names[j].index);
    }
    BuiltSubstitution(prompt, ids, outputs);
    BuiltClean(prompt, ids, outputs);
    assert |Plan(r, names, |names|).value[..i]| == i;
  }
}
