/** The adapter as it runs: one journal, folded and appended to step by step. */
module KernelAdapter {
  import opened Wrappers
  import opened KernelFacts
  import opened KernelPlan
  import opened KernelInvariant
  import opened KernelSteps
  import opened KernelTheorems
  import opened KernelHistory

  lemma HitsAreEvidence(gate: GateExpectation, requirement: Requirement, f: Fact)
    requires Hits(EvidenceFor(gate, requirement), f)
    ensures f.EvidenceFact?
  {
  }

  lemma HitsAreExecutions(digest: Digest, f: Fact)
    requires Hits(ExecutionNamed(digest), f)
    ensures f.ExecutionFact?
  {
  }

  lemma ServedInOrder(records: seq<Fact>, r: Request, env: Env)
    requires Valid(records)
    ensures var step := Handle(records, r, env);
            && Valid(step.records) && step.reply != Refused(JournalAmbiguous)
            && ((exists i :: 0 <= i < |records| && records[i].key == r.key) ==> step.records == records)
  {
    hide Valid, Handle;
    HandleKeepsValid(records, r, env);
    UnambiguousReply(records, r, env);
    if i: nat :| i < |records| && records[i].key == r.key { ReplayAnswersFromRecord(records, i, r, env); }
  }

  lemma UnambiguousReply(records: seq<Fact>, r: Request, env: Env)
    requires Valid(records)
    ensures Handle(records, r, env).reply != Refused(JournalAmbiguous)
  {
    hide Valid, PlanOf, Sound;
    if EnvelopeRefusal(r, env).None? { PlanInOrder(records, r, env); }
  }

  lemma NoRows()
    ensures SelectedEvidence([]) == multiset{} && forall result :: !AnyRow([], result)
  {
  }

  /** How one more row changes the flags and the selected evidence. */
  lemma OneMoreRow(rows: seq<GateRow>, row: GateRow)
    ensures SelectedEvidence(rows + [row])
            == SelectedEvidence(rows) + if row.evidenceDigest.Some? then multiset{row.evidenceDigest.value}
              else multiset{}
    ensures forall result :: AnyRow(rows + [row], result) <==> (AnyRow(rows, result) || row.result == result)
  {
    assert (rows + [row])[..|rows|] == rows;
    forall result ensures AnyRow(rows + [row], result) <==> (AnyRow(rows, result) || row.result == result) {
      if row.result == result { assert row in rows + [row]; }
      if r :| r in rows && r.result == result { assert r in rows + [row]; }
    }
  }

  /** A row carries evidence exactly when it is not blocked. */
  lemma RowHasEvidence(records: seq<Fact>, gate: GateExpectation, requirement: Requirement)
    ensures RowFor(records, gate, requirement).evidenceDigest.Some?
            <==> RowFor(records, gate, requirement).result != RowBlocked
  {
    hide Select, Hits;
    var matches := Select(records, EvidenceFor(gate, requirement));
    if |matches| == 1 { HitsAreEvidence(gate, requirement, matches[0]); }
  }

  /** What a row says about the journal. */
  predicate RowMeans(records: seq<Fact>, gate: GateExpectation, requirement: Requirement, row: GateRow) {
    var q := EvidenceFor(gate, requirement);
    && row.requirement == requirement
    && (row.result == RowBlocked <==> !exists i :: 0 <= i < |records| && OnlyHit(records, q, i))
    && (row.result == RowPass <==>
          exists i, j :: 0 <= i < |records| && OnlyHit(records, q, i) && 0 <= j < i && PassesFor(records, i, j))
  }

  predicate OnlyHit(records: seq<Fact>, q: Query, i: nat)
    requires i < |records|
  {
    Hits(q, records[i]) && forall k :: 0 <= k < |records| && k != i ==> !Hits(q, records[k])
  }

  /** The execution the evidence names, recorded before it, passed. */
  predicate PassesFor(records: seq<Fact>, i: nat, j: nat)
    requires j < i < |records|
  {
    && records[i].EvidenceFact? && records[j].ExecutionFact?
    && records[j].executionDigest == records[i].evidence.checkExecutionDigest
    && records[j].execution.outcome == OutcomePass
  }

  lemma OnlyHitIsSelected(records: seq<Fact>, q: Query, i: nat)
    requires i < |records| && OnlyHit(records, q, i)
    ensures Select(records, q) == [records[i]]
  {
    hide Hits;
    SelectIs(records, q, records[i]) by { SelectUnique(records, q); }
  }

  lemma RowIsMeant(records: seq<Fact>, gate: GateExpectation, requirement: Requirement)
    requires Valid(records) && requirement.requiredOutcome == OutcomePass
    ensures RowMeans(records, gate, requirement, RowFor(records, gate, requirement))
  {
    hide Valid, Hits, Select, OnlyHit;
    var q := EvidenceFor(gate, requirement);
    var row := RowFor(records, gate, requirement);
    RowIsDecided(records, gate, requirement);
    forall i | 0 <= i < |records| && OnlyHit(records, q, i) ensures Select(records, q) == [records[i]] {
      OnlyHitIsSelected(records, q, i);
    }
    if row.result != RowBlocked {
      var i := SelectedIndex(records, q);
      IsOnlyHit(records, q, i);
      HitsAreEvidence(gate, requirement, records[i]);
      var j := EvidenceRestsOnExecution(records, i);
      assert row.result == RowPass <==> PassesFor(records, i, j);
      forall k, l | 0 <= k < |records| && OnlyHit(records, q, k) && 0 <= l < k && PassesFor(records, k, l)
        ensures row.result == RowPass
      {
        SameExecution(records, i, k, j, l);
      }
    }
  }

  lemma IsOnlyHit(records: seq<Fact>, q: Query, i: nat)
    requires i < |records| && Hits(q, records[i]) && forall k :: 0 <= k < |records| && k != i ==> !Hits(q, records[k])
    ensures OnlyHit(records, q, i)
  {
  }

  /** Equal evidence rests on one execution. */
  lemma SameExecution(records: seq<Fact>, i: nat, k: nat, j: nat, l: nat)
    requires Valid(records) && j < i < |records| && l < k < |records| && records[i] == records[k]
    requires records[i].EvidenceFact? && records[j].ExecutionFact? && PassesFor(records, k, l)
    requires records[j].executionDigest == records[i].evidence.checkExecutionDigest
    ensures records[j].execution.outcome == OutcomePass
  {
    var q := ExecutionNamed(records[i].evidence.checkExecutionDigest);
    hide Valid, Select;
    Lookup(records, q, records[j]);
    Lookup(records, q, records[l]);
  }

  class Kernel {
    /** The journal entries, oldest first. */
    var records: seq<Fact>

    constructor ()
      ensures records == []
    {
      records := [];
    }

    /** `_journal_position`: the chain link over the first `limit` records. */
    method JournalPosition(limit: nat) returns (position: Position)
      requires limit <= |records|
      ensures position == PositionAt(records, limit)
    {
      var link := Genesis;
      for i := 0 to limit
        invariant link == Chain(records[..i])
      {
        assert records[..i + 1][..i] == records[..i];
        link := Link(link, records[i]);
      }
      position := Position(limit, link);
    }

    /**
     One turn of the row loop of `_evaluate_gate`. Over a journal in order the row is blocked just
     when the requirement has no evidence, or more than one; else it passes just when the one
     execution behind its evidence passed.
     */
    method EvaluateRow(gate: GateExpectation, requirement: Requirement) returns (row: GateRow)
      requires requirement.requiredOutcome == OutcomePass
      ensures row == RowFor(records, gate, requirement)
      ensures Valid(records) ==> RowMeans(records, gate, requirement, row)
    {
      hide Hits, Valid, RowMeans;
      if Valid(records) {
        RowIsMeant(records, gate, requirement);
      }
      row := BlockedRow(requirement);
      var matches := Select(records, EvidenceFor(gate, requirement));
      if |matches| != 1 {
        return;
      }
      assert Hits(EvidenceFor(gate, requirement), matches[0]);
      HitsAreEvidence(gate, requirement, matches[0]);
      var evidence := matches[0].evidence;
      var executions := Select(records, ExecutionNamed(evidence.checkExecutionDigest));
      if |executions| != 1 {
        return;
      }
      HitsAreExecutions(evidence.checkExecutionDigest, executions[0]);
      var execution := executions[0].execution;
      if execution.resultArtifactDigest != evidence.resultArtifactDigest
         || (execution.outcome != OutcomePass && execution.outcome != OutcomeFail)
      {
        return;
      }
      var result := if execution.outcome == requirement.requiredOutcome then RowPass else RowFail;
      row := GateRow(requirement, result, Some(matches[0].evidenceDigest), Some(evidence.producerBindingDigest));
    }

    /** The row loop of `_evaluate_gate`, with its two flags and the selected evidence. */
    method EvaluateRows(gate: GateExpectation)
      returns (rows: seq<GateRow>, selected: multiset<Digest>, blocked: bool, failed: bool)
      requires GateWellFormed(gate)
      ensures rows == RowsFor(records, gate) && selected == SelectedEvidence(rows)
      ensures blocked == AnyRow(rows, RowBlocked) && failed == AnyRow(rows, RowFail)
    {
      hide RowFor, SelectedEvidence, AnyRow;
      NoRows();
      rows, selected, blocked, failed := [], multiset{}, false, false;
      for i := 0 to |gate.requirements|
        invariant rows == RowsFor(records, gate)[..i]
        invariant selected == SelectedEvidence(rows)
        invariant blocked == AnyRow(rows, RowBlocked) && failed == AnyRow(rows, RowFail)
      {
        var requirement := gate.requirements[i];
        assert requirement in gate.requirements;
        var row := EvaluateRow(gate, requirement);
        OneMoreRow(rows, row);
        RowHasEvidence(records, gate, requirement);
        rows := rows + [row];
        if row.result == RowBlocked {
          blocked := true;
        } else {
          failed := failed || row.result == RowFail;
          selected := selected + multiset{row.evidenceDigest.value};
        }
      }
    }

    /** `journal.append`: the new entry and the root it produces. */
    method Append(fact: Fact) returns (root: Digest)
      modifies this
      ensures records == old(records) + [fact] && root == Chain(records)
    {
      records := records + [fact];
      var position := JournalPosition(|records|);
      assert records[..|records|] == records;
      root := position.rootDigest;
    }

    /** Carry out a decided plan. */
    method Carry(plan: Plan) returns (reply: Reply)
      requires Grounded(records, plan)
      modifies this
      ensures Step(reply, records) == Settle(old(records), plan)
    {
      match plan
      case Refuse(code) => reply := Refused(code);
      case Answer(projection) => reply := Done(projection, None);
      case Replay(prior, projection) =>
        var position := JournalPosition(FirstIndex(records, prior) + 1);
        reply := Done(projection, Some(position));
      case Commit(fact, projection) =>
        var root := Append(fact);
        assert records[..|records|] == records;
        reply := Done(projection, Some(Position(|records|, root)));
    }

    /** `_evaluate_gate`, with the decision taken from the two flags. */
    method EvaluateGate(r: Request, env: Env) returns (reply: Reply)
      modifies this
      ensures Step(reply, records) == Settle(old(records), PlanEvaluate(old(records), r, env))
    {
      var early := GatePreflight(records, r, env);
      if early.Some? {
        reply := Carry(early.value);
        return;
      }
      var gate := r.body.gate;
      var rows, selected, blocked, failed := EvaluateRows(gate);
      var decision := if blocked then Blocked else if failed then Fail else Pass;
      var prior := JournalPosition(|records|);
      assert records[..|records|] == records;
      var verdict := Verdict(gate.verdictId, gate.taskBindingDigest, gate.subjectStateDigest, gate.gateCatalogDigest,
                             EvidenceSetD(selected), gate.authorityDigest, gate.ranexProvenanceDigest,
                             prior.rootDigest, |records|, decision, gate.evaluatedAt);
      var fact := VerdictFact(r.key, r.bodyDigest, GateEvaluationD(gate), VerdictD(verdict), verdict, selected, rows,
                              r.body.gateSubject);
      if Select(records, VerdictWithId(verdict.verdictId)) != [] {
        reply := Carry(Refuse(IdempotencyConflict));
      } else {
        reply := Carry(Commit(fact, ProjectionOf(fact)));
      }
    }

    /**
     One framed request. A journal in order stays in order and is never found ambiguous; one fact at
     most is appended, none by a refusal, and none under a key that is already recorded.
     */
    method Serve(r: Request, env: Env) returns (reply: Reply)
      modifies this
      ensures Step(reply, records) == Handle(old(records), r, env)
      ensures old(records) <= records && |records| <= |old(records)| + 1
      ensures reply.Refused? ==> records == old(records)
      ensures old(Valid(records)) ==> Valid(records) && reply != Refused(JournalAmbiguous)
      ensures old(Valid(records)) && (exists i :: 0 <= i < |old(records)| && old(records)[i].key == r.key) ==>
                records == old(records)
    {
      hide Valid;
      if Valid(records) {
        ServedInOrder(records, r, env);
      }
      var refusal := EnvelopeRefusal(r, env);
      if refusal.Some? {
        reply := Refused(refusal.value);
      } else if r.operation == GateEvaluate {
        reply := EvaluateGate(r, env);
      } else {
        reply := Carry(PlanOf(records, r, env));
      }
    }
  }
}
