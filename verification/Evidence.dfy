/** `valid_evidence`: which observations count, and that filtering them is well behaved. */
module Evidence {
  import opened Options

  /** A tool's JSON result: its canonical text, and the fields the gate looks at. */
  datatype Output = Output(text: string, present: bool, error: bool, partial: bool, truncated: bool) {
    predicate Complete() {
      present && !error && !partial && !truncated
    }
  }

  /** SHA-256 of the canonical text; the preimage stands for the digest. */
  datatype ContentHash = Sha256(preimage: Output)

  function HashOf(o: Output): ContentHash {
    Sha256(o)
  }

  datatype ToolStatus = Succeeded | Failed | TimedOut | Denied

  datatype Call = Call(id: nat, tool: string, status: ToolStatus, output: Output, attempts: nat)

  datatype Item = Item(id: nat, run: string, source: string, call: nat, hash: ContentHash, result: Output)

  /** `{call.id: call for call in calls if SUCCEEDED}`: a later call with the same id wins. */
  function Successful(calls: seq<Call>): map<nat, Call> {
    if calls == [] then map[]
    else
      var earlier, c := Successful(calls[..|calls| - 1]), calls[|calls| - 1];
      if c.status == Succeeded then earlier[c.id := c] else earlier
  }

  predicate Valid(item: Item, calls: seq<Call>, run: string) {
    && item.call in Successful(calls)
    && item.run == run
    && item.result == Successful(calls)[item.call].output
    && item.hash == HashOf(item.result)
    && item.result.Complete()
  }

  /** The first valid item with its content. */
  predicate FirstOfItsContent(evidence: seq<Item>, calls: seq<Call>, run: string, i: nat)
    requires i < |evidence|
  {
    && Valid(evidence[i], calls, run)
    && forall j :: 0 <= j < i && Valid(evidence[j], calls, run) ==> evidence[j].result != evidence[i].result
  }

  /** The positions that survive, in order. */
  function Kept(evidence: seq<Item>, calls: seq<Call>, run: string): (kept: seq<nat>)
    ensures forall k :: 0 <= k < |kept| ==> kept[k] < |evidence|
  {
    if evidence == [] then []
    else
      var last := |evidence| - 1;
      var earlier := Kept(evidence[..last], calls, run);
      if FirstOfItsContent(evidence, calls, run, last) then earlier + [last] else earlier
  }

  function Select(evidence: seq<Item>, positions: seq<nat>): (items: seq<Item>)
    requires forall k :: 0 <= k < |positions| ==> positions[k] < |evidence|
    ensures |items| == |positions|
  {
    seq(|positions|, k requires 0 <= k < |positions| => evidence[positions[k]])
  }

  /** The evidence that counts: every position that is the first of its content. */
  function ValidEvidence(evidence: seq<Item>, calls: seq<Call>, run: string): seq<Item> {
    Select(evidence, Kept(evidence, calls, run))
  }

  /** The contents of the valid items among the first `i`. */
  function Seen(evidence: seq<Item>, calls: seq<Call>, run: string, i: nat): set<ContentHash>
    requires i <= |evidence|
  {
    set j | 0 <= j < i && Valid(evidence[j], calls, run) :: HashOf(evidence[j].result)
  }

  lemma SeenOneMore(evidence: seq<Item>, calls: seq<Call>, run: string, i: nat)
    requires i < |evidence|
    ensures Seen(evidence, calls, run, i + 1)
            == Seen(evidence, calls, run, i)
               + if Valid(evidence[i], calls, run) then {HashOf(evidence[i].result)} else {}
  {
  }

  lemma SeenDecides(evidence: seq<Item>, calls: seq<Call>, run: string, i: nat)
    requires i < |evidence|
    ensures FirstOfItsContent(evidence[..i + 1], calls, run, i)
            <==> Valid(evidence[i], calls, run) && HashOf(evidence[i].result) !in Seen(evidence, calls, run, i)
  {
    var prefix := evidence[..i + 1];
    assert forall j :: 0 <= j <= i ==> prefix[j] == evidence[j];
  }

  /** An item counts exactly when it is valid and its content was not seen. */
  lemma FilterOneMore(evidence: seq<Item>, calls: seq<Call>, run: string, i: nat)
    requires i < |evidence|
    ensures var before, counts := ValidEvidence(evidence[..i], calls, run),
                                  Valid(evidence[i], calls, run)
                                  && HashOf(evidence[i].result) !in Seen(evidence, calls, run, i);
            ValidEvidence(evidence[..i + 1], calls, run) == if counts then before + [evidence[i]] else before
  {
    ExtendValid(evidence[..i], evidence[i], calls, run);
    assert evidence[..i] + [evidence[i]] == evidence[..i + 1];
    SeenDecides(evidence, calls, run, i);
  }

  /** The source's loop computes exactly the positions that are first of their content. */
  method Filter(evidence: seq<Item>, calls: seq<Call>, run: string) returns (valid: seq<Item>)
    ensures valid == ValidEvidence(evidence, calls, run)
  {
    var successful := Successful(calls);
    valid := [];
    var seen: set<ContentHash> := {};
    var i := 0;
    while i < |evidence|
      invariant 0 <= i <= |evidence|
      invariant valid == ValidEvidence(evidence[..i], calls, run)
      invariant seen == Seen(evidence, calls, run, i)
    {
      var item := evidence[i];
      FilterOneMore(evidence, calls, run, i);
      SeenOneMore(evidence, calls, run, i);
      if item.call in successful && item.run == run && item.result.present
         && item.result == successful[item.call].output && item.hash == HashOf(item.result)
         && !item.result.error && !item.result.partial && !item.result.truncated {
        var digest := HashOf(item.result);
        if digest !in seen {
          valid := valid + [item];
          seen := seen + {digest};
        }
      }
      i := i + 1;
    }
    assert evidence[..|evidence|] == evidence;
  }

  // ----------------------------------------------------------------- properties

  /** Appending one item appends it or changes nothing: nothing earlier is ever dropped. */
  lemma ExtendValid(evidence: seq<Item>, item: Item, calls: seq<Call>, run: string)
    ensures var n := |evidence|;
            ValidEvidence(evidence + [item], calls, run)
            == if FirstOfItsContent(evidence + [item], calls, run, n)
               then ValidEvidence(evidence, calls, run) + [item] else ValidEvidence(evidence, calls, run)
  {
    assert (evidence + [item])[..|evidence|] == evidence;
  }

  /** Order-preserving, and it keeps exactly the first item of every valid content. */
  lemma {:induction false} KeptExactly(evidence: seq<Item>, calls: seq<Call>, run: string)
    ensures var kept := Kept(evidence, calls, run);
            && (forall k, l :: 0 <= k < l < |kept| ==> kept[k] < kept[l])
            && (forall i :: 0 <= i < |evidence| ==> (i in kept <==> FirstOfItsContent(evidence, calls, run, i)))
  {
    if evidence != [] {
      var last := |evidence| - 1;
      KeptExactly(evidence[..last], calls, run);
      forall i | 0 <= i < last
        ensures FirstOfItsContent(evidence, calls, run, i) <==> FirstOfItsContent(evidence[..last], calls, run, i)
      {
      }
    }
  }

  /** All survivors are valid and pairwise different in content. */
  lemma SurvivorsAreDistinct(evidence: seq<Item>, calls: seq<Call>, run: string)
    ensures var valid := ValidEvidence(evidence, calls, run);
            && (forall k :: 0 <= k < |valid| ==> Valid(valid[k], calls, run))
            && (forall k, l :: 0 <= k < l < |valid| ==> valid[k].hash != valid[l].hash)
  {
    KeptExactly(evidence, calls, run);
    var kept := Kept(evidence, calls, run);
    forall k | 0 <= k < |kept|
      ensures FirstOfItsContent(evidence, calls, run, kept[k])
    {
      assert kept[k] in kept;
    }
  }

  ghost predicate AllValidDistinct(evidence: seq<Item>, calls: seq<Call>, run: string) {
    && (forall k :: 0 <= k < |evidence| ==> Valid(evidence[k], calls, run))
    && (forall k, l :: 0 <= k < l < |evidence| ==> evidence[k].hash != evidence[l].hash)
  }

  /** Evidence passes unchanged iff it is all valid and pairwise distinct. */
  lemma {:induction false} FixedPoints(evidence: seq<Item>, calls: seq<Call>, run: string)
    ensures ValidEvidence(evidence, calls, run) == evidence <==> AllValidDistinct(evidence, calls, run)
  {
    SurvivorsAreDistinct(evidence, calls, run);
    if AllValidDistinct(evidence, calls, run) {
      PassesUnchanged(evidence, calls, run);
    }
  }

  lemma LastIsFirst(evidence: seq<Item>, calls: seq<Call>, run: string)
    requires AllValidDistinct(evidence, calls, run) && evidence != []
    ensures FirstOfItsContent(evidence, calls, run, |evidence| - 1)
    ensures AllValidDistinct(evidence[..|evidence| - 1], calls, run)
  {
    var last := |evidence| - 1;
    forall j | 0 <= j < last
      ensures evidence[j].result != evidence[last].result
    {
      assert Valid(evidence[j], calls, run) && Valid(evidence[last], calls, run);
    }
  }

  lemma {:induction false} PassesUnchanged(evidence: seq<Item>, calls: seq<Call>, run: string)
    requires AllValidDistinct(evidence, calls, run)
    ensures ValidEvidence(evidence, calls, run) == evidence
  {
    if evidence != [] {
      var last := |evidence| - 1;
      LastIsFirst(evidence, calls, run);
      PassesUnchanged(evidence[..last], calls, run);
      assert evidence[..last] + [evidence[last]] == evidence;
      ExtendValid(evidence[..last], evidence[last], calls, run);
    }
  }

  lemma Idempotent(evidence: seq<Item>, calls: seq<Call>, run: string)
    ensures ValidEvidence(ValidEvidence(evidence, calls, run), calls, run) == ValidEvidence(evidence, calls, run)
  {
    SurvivorsAreDistinct(evidence, calls, run);
    PassesUnchanged(ValidEvidence(evidence, calls, run), calls, run);
  }

  /** Recording a call under a fresh id leaves every judgement about existing evidence alone. */
  lemma {:induction false} FreshCallKeepsEvidence(evidence: seq<Item>, calls: seq<Call>, run: string, c: Call)
    requires forall k :: 0 <= k < |evidence| ==> evidence[k].call != c.id
    ensures ValidEvidence(evidence, calls + [c], run) == ValidEvidence(evidence, calls, run)
  {
    assert (calls + [c])[..|calls|] == calls;
    forall k | 0 <= k < |evidence|
      ensures Valid(evidence[k], calls + [c], run) <==> Valid(evidence[k], calls, run)
    {
    }
    SameJudgementSameKept(evidence, calls + [c], calls, run);
  }

  lemma {:induction false} SameJudgementSameKept(evidence: seq<Item>, calls: seq<Call>, calls': seq<Call>, run: string)
    requires forall k :: 0 <= k < |evidence| ==> (Valid(evidence[k], calls, run) <==> Valid(evidence[k], calls', run))
    ensures Kept(evidence, calls, run) == Kept(evidence, calls', run)
  {
    if evidence != [] {
      SameJudgementSameKept(evidence[..|evidence| - 1], calls, calls', run);
    }
  }
}
