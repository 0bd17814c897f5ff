/** The completion gate in front of the store: the requirement audit, the deterministic verifier, the decision. */
module Completion {
  import opened Outcomes
  import opened Tables
  import opened WorkOps

  datatype LedgerEntry = LedgerEntry(id: RequirementId, row: Requirement)

  datatype ValidationResult = ValidationResult(id: string, passed: bool)

  datatype Audit = Audit(contradicted: seq<LedgerEntry>, proven: seq<LedgerEntry>, unproven: seq<LedgerEntry>)

  // ----- The audit -----

  predicate Obliges(q: Requirement) { q.required && q.status != Waived }

  predicate IsContradicted(q: Requirement) { Obliges(q) && q.status == Contradicted }

  predicate IsProven(q: Requirement) { Obliges(q) && q.status == Proven && CanMarkProven(q.evidence) }

  predicate IsUnproven(q: Requirement) { Obliges(q) && !IsContradicted(q) && !IsProven(q) }

  function Select(ledger: seq<LedgerEntry>, choose: Requirement -> bool): (r: seq<LedgerEntry>)
    ensures forall x :: x in r <==> x in ledger && choose(x.row)
  {
    if ledger == [] then []
    else
      var n := |ledger| - 1;
      Select(ledger[..n], choose) + (if choose(ledger[n].row) then [ledger[n]] else [])
  }

  /** `auditRequirements`: each list keeps the order of the ledger. */
  method AuditRequirements(ledger: seq<LedgerEntry>) returns (audit: Audit)
    ensures audit.contradicted == Select(ledger, IsContradicted)
    ensures audit.proven == Select(ledger, IsProven)
    ensures audit.unproven == Select(ledger, IsUnproven)
  {
    var contradicted, proven, unproven := [], [], [];
    for i := 0 to |ledger|
      invariant contradicted == Select(ledger[..i], IsContradicted)
      invariant proven == Select(ledger[..i], IsProven)
      invariant unproven == Select(ledger[..i], IsUnproven)
    {
      var q := ledger[i].row;
      assert ledger[..i + 1][..i] == ledger[..i];
      if !q.required || q.status == Waived { continue; }
      if q.status == Contradicted {
        contradicted := contradicted + [ledger[i]];
      } else if q.status == Proven && CanMarkProven(q.evidence) {
        proven := proven + [ledger[i]];
      } else {
        unproven := unproven + [ledger[i]];
      }
    }
    assert ledger[..|ledger|] == ledger;
    return Audit(contradicted, proven, unproven);
  }

  /** The audit's three lists split the obligations, and the store's filter rejects just what the audit rejects. */
  lemma AuditAgreesWithStore(q: Requirement)
    ensures RemainsUnproven(q) <==> IsContradicted(q) || IsUnproven(q)
    ensures Obliges(q) <==> IsContradicted(q) || IsProven(q) || IsUnproven(q)
    ensures !(IsContradicted(q) && IsProven(q)) && !(IsContradicted(q) && IsUnproven(q))
        && !(IsProven(q) && IsUnproven(q))
  {
  }

  // ----- The gate -----

  datatype Verdict = Verdict(complete: bool, missing: seq<RequirementId>)

  datatype Reason =
    | RemainUnproven(ids: seq<RequirementId>) | AreContradicted(ids: seq<RequirementId>)
    | ValidationsFailed(failures: seq<string>) | NoVerifier | VerifierConcerns
    | VerifierMissing(ids: seq<RequirementId>)

  datatype Decision = Decision(accepted: bool, reasons: seq<Reason>)

  function Ids(ledger: seq<LedgerEntry>): (r: seq<RequirementId>)
    ensures |r| == |ledger| && forall i :: 0 <= i < |r| ==> r[i] == ledger[i].id
  {
    seq(|ledger|, i requires 0 <= i < |ledger| => ledger[i].id)
  }

  function Failures(validations: seq<ValidationResult>): (r: seq<string>)
    ensures r == [] <==> forall v :: v in validations ==> v.passed
  {
    if validations == [] then []
    else (if validations[0].passed then [] else [validations[0].id]) + Failures(validations[1..])
  }

  predicate Satisfied(ledger: seq<LedgerEntry>, validations: seq<ValidationResult>)
  {
    && (forall x :: x in ledger ==> !RemainsUnproven(x.row))
    && (forall v :: v in validations ==> v.passed)
  }

  lemma IdsMembers(ledger: seq<LedgerEntry>, id: RequirementId)
    ensures id in Ids(ledger) <==> exists x :: x in ledger && x.id == id
  {
    if id in Ids(ledger) {
      var i :| 0 <= i < |ledger| && Ids(ledger)[i] == id;
      assert ledger[i] in ledger;
    }
    if x :| x in ledger && x.id == id {
      var i :| 0 <= i < |ledger| && ledger[i] == x;
      assert Ids(ledger)[i] == id;
    }
  }

  /** What the audit leaves open is what the store's filter rejects. */
  lemma OpenObligations(ledger: seq<LedgerEntry>, id: RequirementId)
    ensures id in Ids(Select(ledger, IsUnproven)) + Ids(Select(ledger, IsContradicted))
            <==> exists x :: x in ledger && x.id == id && RemainsUnproven(x.row)
  {
    IdsMembers(Select(ledger, IsUnproven), id);
    IdsMembers(Select(ledger, IsContradicted), id);
  }

  /** `DeterministicIndependentVerifier.verify`. */
  method Verify(ledger: seq<LedgerEntry>, validations: seq<ValidationResult>) returns (verdict: Verdict)
    ensures verdict.complete <==> Satisfied(ledger, validations)
    ensures forall id :: id in verdict.missing <==> exists x :: x in ledger && x.id == id && RemainsUnproven(x.row)
  {
    var audit := AuditRequirements(ledger);
    var missing := Ids(audit.unproven) + Ids(audit.contradicted);
    forall id ensures id in missing <==> exists x :: x in ledger && x.id == id && RemainsUnproven(x.row) {
      OpenObligations(ledger, id);
    }
    hide Ids, Select, RemainsUnproven;
    assert missing == [] <==> forall x :: x in ledger ==> !RemainsUnproven(x.row) by {
      if missing != [] {
        assert missing[0] in missing;
      }
    }
    return Verdict(missing == [] && Failures(validations) == [], missing);
  }

  /** What the gate itself holds against completion. */
  function OpenReasons(ledger: seq<LedgerEntry>, validations: seq<ValidationResult>): seq<Reason>
  {
    var unproven, contradicted := Select(ledger, IsUnproven), Select(ledger, IsContradicted);
    var failures := Failures(validations);
    (if unproven == [] then [] else [RemainUnproven(Ids(unproven))])
    + (if contradicted == [] then [] else [AreContradicted(Ids(contradicted))])
    + (if failures == [] then [] else [ValidationsFailed(failures)])
  }

  function VerifierReasons(verdict: Verdict): seq<Reason>
  {
    if verdict.complete then []
    else [VerifierConcerns] + (if verdict.missing == [] then [] else [VerifierMissing(verdict.missing)])
  }

  lemma OpenReasonsMeaning(ledger: seq<LedgerEntry>, validations: seq<ValidationResult>)
    ensures OpenReasons(ledger, validations) == [] <==> Satisfied(ledger, validations)
  {
    var unproven, contradicted := Select(ledger, IsUnproven), Select(ledger, IsContradicted);
    assert unproven == [] <==> forall x :: x in ledger ==> !IsUnproven(x.row) by {
      if unproven != [] { assert unproven[0] in unproven; }
    }
    assert contradicted == [] <==> forall x :: x in ledger ==> !IsContradicted(x.row) by {
      if contradicted != [] { assert contradicted[0] in contradicted; }
    }
  }

  /** `CompletionGate.evaluate`, given what the configured verifier would answer. */
  method Evaluate(ledger: seq<LedgerEntry>, validations: seq<ValidationResult>, verifier: Option<Verdict>)
    returns (decision: Decision)
    ensures decision.accepted <==> Satisfied(ledger, validations) && verifier.Some? && verifier.value.complete
    ensures decision.reasons ==
            if OpenReasons(ledger, validations) != [] then OpenReasons(ledger, validations)
            else if verifier.None? then [NoVerifier]
            else VerifierReasons(verifier.value)
  {
    OpenReasonsMeaning(ledger, validations);
    hide Satisfied, Ids, Select, Failures;
    var audit := AuditRequirements(ledger);
    var reasons: seq<Reason> := [];
    if audit.unproven != [] {
      reasons := reasons + [RemainUnproven(Ids(audit.unproven))];
    }
    if audit.contradicted != [] {
      reasons := reasons + [AreContradicted(Ids(audit.contradicted))];
    }
    var failures := Failures(validations);
    if failures != [] {
      reasons := reasons + [ValidationsFailed(failures)];
    }
    if reasons != [] {
      return Decision(false, reasons);
    }
    if verifier.None? {
      return Decision(false, [NoVerifier]);
    }
    if !verifier.value.complete {
      return Decision(false, VerifierReasons(verifier.value));
    }
    return Decision(true, []);
  }

  // ----- The gate and the store -----

  /** The gate was shown just the requirements of the Run, ... */
  predicate ShowsLedger(db: Database, r: RunId, ledger: seq<LedgerEntry>)
  {
    && (forall x :: x in ledger ==> x.id in db.requirements && db.requirements[x.id] == x.row && x.row.runId == r)
    && (forall id :: id in db.requirements && db.requirements[id].runId == r ==>
        LedgerEntry(id, db.requirements[id]) in ledger)
  }

  /** ... and just its validations. */
  predicate ShowsValidations(db: Database, r: RunId, validations: seq<ValidationResult>)
  {
    (forall v :: v in validations ==> v.passed) <==>
    (forall i :: 0 <= i < |db.validations| && db.validations[i].runId == r ==> db.validations[i].passed)
  }

  /** What the gate decides is what the store then does: for a running Run whose passing independent validation is
      recorded, the store completes it exactly when the gate's conditions hold. */
  lemma GateAgreesWithStore(db: Database, r: RunId, ledger: seq<LedgerEntry>, validations: seq<ValidationResult>,
                            now: Time)
    requires r in db.runs && db.runs[r].status == Running
    requires ShowsLedger(db, r, ledger) && ShowsValidations(db, r, validations)
    ensures var recorded := RecordValidation(db, r, true, true, None, now);
            && recorded.Ok?
            && var proposed := ProposeCompletion(recorded.value, r, true, true, None, now);
               && proposed.Ok? && r in proposed.value.runs
               && (proposed.value.runs[r].status == Completed <==> Satisfied(ledger, validations))
  {
    var recorded := RecordValidation(db, r, true, true, None, now).value;
    var n := |db.validations|;
    assert recorded.validations == db.validations + [Validation(r, true, true)];
    assert recorded.validations[n].independent && recorded.validations[n].runId == r;
    assert recorded.requirements == db.requirements && recorded.runs[r].status == Running;
    assert Completable(recorded, r) <==> Satisfied(ledger, validations) by {
      hide RecordValidation;
      if Completable(recorded, r) {
        assert forall i :: 0 <= i < n ==> db.validations[i] == recorded.validations[i];
      }
    }
    hide Completable, RecordValidation, Satisfied;
  }
}
