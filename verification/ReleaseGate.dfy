/** The release decision over evidence payloads, and the producer of the bubblewrap evidence it reads. */
module ReleaseGate {
  import opened Prelude
  import opened Text

  // ---------- JSON values ----------

  datatype Json = Null | Bool(value: bool) | Num(number: int) | Str(text: string) | Arr(items: seq<Json>) | Obj(fields: map<string, Json>)

  type Payload = map<string, Json>

  function Get(p: Payload, key: string): Json {
    if key in p then p[key] else Null
  }

  function GetOr(p: Payload, key: string, default: Json): Json {
    if key in p then p[key] else default
  }

  predicate Truthy(v: Json) {
    match v
    case Null => false
    case Bool(b) => b
    case Num(n) => n != 0
    case Str(s) => s != ""
    case Arr(items) => items != []
    case Obj(fields) => fields != map[]
  }

  /** `str(value)`; numbers and containers give a text no check here looks for. */
  function Show(v: Json): string {
    match v
    case Null => "None"
    case Bool(b) => if b then "True" else "False"
    case Num(_) => "<number>"
    case Str(s) => s
    case Arr(_) => "[...]"
    case Obj(_) => "{...}"
  }

  predicate IsTrue(v: Json) {
    v == Bool(true)
  }

  function Folded(s: string): string {
    LowerAll(Strip(s))
  }

  predicate Mentions(s: string, part: string) {
    Occurrence(s, part).Some?
  }

  // ---------- Findings ----------

  datatype Finding = Finding(checkId: string, status: string, reason: string, blocking: bool)

  datatype Decision = Go | ControlledGo | NoGo

  datatype Inputs = Inputs(
    doctor: Option<Payload>,
    bwrap: Option<Payload>,
    audit: Option<Payload>,
    scan: Option<Payload>,
    registry: Option<Payload>,
    revocation: Option<Payload>,
    quarantine: Option<Payload>,
    rollback: Option<Payload>,
    ci: Option<Payload>)

  function WordStatus(word: string): string {
    if word == "success" || word == "ok" || word == "passed" || word == "pass" || word == "go" then "pass"
    else if word == "controlled_go" || word == "warn" || word == "warning" then "warn"
    else if word == "skipped" || word == "skip" then "skipped"
    else "fail"
  }

  predicate Names(v: Json) {
    v.Str? && v.text != ""
  }

  function NormalizedStatus(p: Payload): string {
    if Names(Get(p, "status")) then WordStatus(Folded(Get(p, "status").text))
    else if Names(Get(p, "conclusion")) then WordStatus(Folded(Get(p, "conclusion").text))
    else if Names(Get(p, "decision")) then WordStatus(Folded(Get(p, "decision").text))
    else if Names(Get(p, "policy_decision")) then WordStatus(Folded(Get(p, "policy_decision").text))
    else if Truthy(Get(p, "production_blocking")) then "fail"
    else "pass"
  }

  /** `str(payload.get("reason") or payload.get("summary") or otherwise)`. */
  function ReasonOr(p: Payload, otherwise: string): string {
    if Truthy(Get(p, "reason")) then Show(Get(p, "reason"))
    else if Truthy(Get(p, "summary")) then Show(Get(p, "summary"))
    else otherwise
  }

  /** The fixed reason texts. */
  datatype Note =
    | CiMissing
    | DoctorMissing
    | DoctorReported
    | DoctorElsewhere
    | DoctorParsed
    | BwrapMissing
    | BwrapDiagnostic
    | BwrapHosted
    | BwrapSkipped
    | BwrapPassed
    | BwrapIncomplete
    | AuditMissing
    | AuditFailed
    | AuditVerified
    | AnchorVerified
    | AnchorMissing
    | ScannerReal
    | ScannerMissing
    | ScanMissing
    | ScanNotReal
    | LicenseMissing
    | LicensePresent
    | LicenseUncovered

  function Words(note: Note): string {
    match note
    case CiMissing => "CI result metadata is missing"
    case DoctorMissing => "Production Doctor evidence is missing"
    case DoctorReported => "Production Doctor reported production_blocking=true"
    case DoctorElsewhere => "Production Doctor blocking checks are represented by specific release gate findings"
    case DoctorParsed => "doctor evidence parsed"
    case BwrapMissing => "bwrap.validation evidence is missing"
    case BwrapDiagnostic => "GitHub-hosted or diagnostic bwrap evidence cannot satisfy target production Linux+bwrap validation"
    case BwrapHosted => "GitHub-hosted runner evidence cannot satisfy target production Linux+bwrap validation"
    case BwrapSkipped => "bwrap validation was skipped; target Linux sandbox evidence is required for full production"
    case BwrapPassed => "production-required target Linux+bwrap validation passed"
    case BwrapIncomplete => "bwrap evidence is missing enforced backend capabilities or critical pass checks"
    case AuditMissing => "audit verification evidence is missing"
    case AuditFailed => "audit hash chain or checkpoint verification failed"
    case AuditVerified => "audit hash chain and checkpoint verified"
    case AnchorVerified => "external audit anchor and production immutability verified"
    case AnchorMissing => "external append-only/SIEM/WORM audit anchor is missing; local checkpoint is tamper-evident only"
    case ScannerReal => "real vulnerability scanner evidence is configured"
    case ScannerMissing => "real vulnerability/license scanner evidence is missing"
    case ScanMissing => "scanner evidence is missing"
    case ScanNotReal => "scanner report is not real production scanner evidence"
    case LicenseMissing => "license scanner evidence is missing"
    case LicensePresent => "license scanner evidence is present"
    case LicenseUncovered => "pip-audit covers Python dependency vulnerabilities, not license policy"
  }

  const RISK := "; accepted risk"

  /** A finding an accepted risk turns from a blocking failure into a warning. */
  function Waivable(checkId: string, reason: string, accepted: bool): Finding {
    Finding(checkId, if accepted then "warn" else "fail", reason + (if accepted then RISK else ""), !accepted)
  }

  function Required(checkId: string, reason: string): Finding {
    Finding(checkId, "fail", reason, true)
  }

  // CI.

  predicate IsPassValue(v: Json) {
    v.Str? && (var w := Folded(v.text); w == "success" || w == "ok" || w == "passed" || w == "pass")
  }

  predicate OptionalGroupPasses(p: Payload, keys: set<string>) {
    keys * p.Keys == {} || forall k :: k in keys ==> IsPassValue(Get(p, k))
  }

  const MATRIX_KEYS := {"linux_python_3_11", "linux_python_3_12", "linux_python_3_13",
                        "windows_python_3_11", "windows_python_3_12", "windows_python_3_13"}
  const RESULT_KEYS := {"ruff_result", "mypy_result", "unittest_result", "coverage_result"}

  predicate CiResultsPass(p: Payload) {
    OptionalGroupPasses(p, MATRIX_KEYS) && OptionalGroupPasses(p, RESULT_KEYS)
  }

  function CiStatus(p: Payload): string {
    if Folded(Show(GetOr(p, "status", Str("")))) == "completed" then
      if !IsPassValue(Str(Show(GetOr(p, "conclusion", Str(""))))) then "fail"
      else if CiResultsPass(p) then "pass" else "fail"
    else
      var status := NormalizedStatus(p);
      if status == "pass" && !CiResultsPass(p) then "fail" else status
  }

  function CiFinding(p: Option<Payload>, accepted: bool): Finding {
    match p
    case None => Waivable("ci.matrix", Words(CiMissing), accepted)
    case Some(ci) =>
      var status := CiStatus(ci);
      Finding("ci.matrix", if status == "pass" then "pass" else "fail", ReasonOr(ci, "CI status=" + status), status != "pass")
  }

  // Doctor.

  /** The check items iterated over; None where iterating raises. */
  function DoctorItems(p: Payload): Option<seq<Json>> {
    match GetOr(p, "checks", Arr([]))
    case Arr(items) => Some(items)
    case Str(_) => Some([])
    case Obj(_) => Some([])
    case _ => None
  }

  function ItemFinding(item: Payload): Finding {
    Finding(Show(GetOr(item, "check_id", Str("doctor.unknown"))), Show(GetOr(item, "status", Str("fail"))),
            Show(GetOr(item, "reason", Str(""))), Truthy(Get(item, "production_blocking")))
  }

  function ItemFindings(items: seq<Json>, suppressed: set<string>): seq<Finding> {
    if items == [] then []
    else
      var front, last := ItemFindings(items[..|items| - 1], suppressed), items[|items| - 1];
      if last.Obj? && ItemFinding(last.fields).checkId !in suppressed then front + [ItemFinding(last.fields)] else front
  }

  predicate SuppressedBlocking(items: seq<Json>, suppressed: set<string>) {
    exists i :: 0 <= i < |items| && items[i].Obj?
                && ItemFinding(items[i].fields).checkId in suppressed && ItemFinding(items[i].fields).blocking
  }

  const DOCTOR_BLOCKING := Required("doctor.production_blocking", Words(DoctorReported))
  const DOCTOR_REPRESENTED :=
    Finding("doctor.production_blocking", "pass",
            Words(DoctorElsewhere), false)

  function DoctorFindings(p: Option<Payload>, suppressed: set<string>): Option<seq<Finding>> {
    match p
    case None => Some([Required("doctor.production", Words(DoctorMissing))])
    case Some(doctor) =>
      match DoctorItems(doctor)
      case None => None
      case Some(items) =>
        var found := ItemFindings(items, suppressed);
        var blocking := Truthy(Get(doctor, "production_blocking"));
        var all :=
          if blocking && (exists f :: f in found && f.blocking) then found + [DOCTOR_BLOCKING]
          else if blocking && SuppressedBlocking(items, suppressed) then found + [DOCTOR_REPRESENTED]
          else found;
        Some(if all == [] then [Finding("doctor.production", NormalizedStatus(doctor), Words(DoctorParsed), false)] else all)
  }

  // Bubblewrap.

  const CAPABILITIES := {"process_containment", "resource_limits", "filesystem_isolation", "network_isolation"}

  const CRITICAL_CHECKS := {
    "bwrap_backend_enforced", "bwrap_wrapped_command", "bwrap_unshared_network", "bwrap_private_tmp", "host_home_blocked",
    "env_blocked", "core_blocked", "code_readonly", "private_tmp_writable", "host_tmp_not_leaked", "direct_network_blocked",
    "data_write_allowed", "audit_records_present"}

  predicate HasCapabilities(backend: Payload) {
    var c := Get(backend, "capabilities");
    c.Obj? && forall name :: name in CAPABILITIES ==> IsTrue(Get(c.fields, name))
  }

  predicate BackendEnforced(backend: Json) {
    backend.Obj? && IsTrue(Get(backend.fields, "enforced")) && HasCapabilities(backend.fields)
  }

  /** The status by check id; a later item replaces an earlier one. */
  function Statuses(items: seq<Json>): map<string, string> {
    if items == [] then map[]
    else
      var front, last := Statuses(items[..|items| - 1]), items[|items| - 1];
      if last.Obj? then front[Show(Get(last.fields, "check_id")) := Show(Get(last.fields, "status"))] else front
  }

  predicate CriticalChecksPass(checks: Json) {
    checks.Arr? &&
    var statuses := Statuses(checks.items);
    forall id :: id in CRITICAL_CHECKS ==> id in statuses && statuses[id] == "pass"
  }

  function FailureCheckId(p: Payload): string {
    var preflight, result := Get(p, "preflight"), Get(p, "result");
    if !BackendEnforced(Get(p, "sandbox_backend")) then "bwrap.validation"
    else if preflight.Obj? && Get(preflight.fields, "status") != Str("pass") then
      var reason := LowerAll(if Truthy(Get(p, "reason")) then Show(Get(p, "reason")) else "");
      if Get(preflight.fields, "import_runtime") == Str("fail") || Mentions(reason, "import")
      then "bwrap.validation.runtime_import_failed" else "bwrap.validation.preflight_failed"
    else if !result.Obj? then "bwrap.validation"
    else
      var r, error := result.fields, LowerAll(Show(GetOr(result.fields, "error_type", Str(""))));
      if Get(r, "worker_started") == Bool(false) || Get(r, "json_result_received") == Bool(false)
         || error == "workernooutput" || error == "workerimporterror" || error == "bwraplauncherror" || error == "runtimemounterror"
      then "bwrap.validation.worker_execution_failed" else "bwrap.validation"
  }

  const TARGET_REQUIRED := "sandbox.target_linux_required"

  function BwrapFinding(p: Option<Payload>): Finding {
    match p
    case None => Required("bwrap.validation", Words(BwrapMissing))
    case Some(bwrap) =>
      var status := NormalizedStatus(bwrap);
      var mode := Folded(Show(GetOr(bwrap, "mode", Str(""))));
      if mode == "diagnostic" then
        Required(TARGET_REQUIRED, Words(BwrapDiagnostic))
      else if Folded(Show(GetOr(bwrap, "environment_class", Str("")))) == "github_hosted" then
        Required(TARGET_REQUIRED, Words(BwrapHosted))
      else if status == "skipped" then
        Required("bwrap.validation",
                 Words(BwrapSkipped))
      else if mode != "" && mode != "production-required" then
        Required("bwrap.validation", "bwrap evidence mode=" + mode + " is not production-required")
      else if status != "pass" then
        Required(FailureCheckId(bwrap), ReasonOr(bwrap, "bwrap.validation status=" + status))
      else if BackendEnforced(Get(bwrap, "sandbox_backend")) && CriticalChecksPass(Get(bwrap, "checks")) then
        Finding("bwrap.validation", "pass", Words(BwrapPassed), false)
      else
        Required("bwrap.validation", Words(BwrapIncomplete))
  }

  // Audit.

  predicate AuditLocalVerified(p: Payload) {
    || (IsTrue(Get(p, "hash_chain_verified")) && IsTrue(Get(p, "checkpoint_verified")))
    || (NormalizedStatus(p) == "pass" &&
        var checkpoint := Get(p, "checkpoint");
        var status := if checkpoint.Obj? then Get(checkpoint.fields, "status") else Null;
        status == Null || status == Str("success") || status == Str("pass"))
  }

  predicate Anchored(p: Payload) {
    IsTrue(Get(p, "external_anchor_configured")) && IsTrue(Get(p, "production_immutability"))
  }

  function AuditFindings(p: Option<Payload>, accepted: bool): seq<Finding> {
    match p
    case None => [Required("audit.verify", Words(AuditMissing))]
    case Some(audit) =>
      if !AuditLocalVerified(audit) then
        [Required("audit.verify", if Truthy(Get(audit, "reason")) then Show(Get(audit, "reason"))
                                  else Words(AuditFailed))]
      else
        [Finding("audit.verify", "pass", Words(AuditVerified), false),
         if Anchored(audit)
         then Finding("audit.external_anchor", "pass", Words(AnchorVerified), false)
         else Waivable("audit.external_anchor_missing",
                       Words(AnchorMissing),
                       accepted)]
  }

  // Scanner.

  predicate RealScannerReport(p: Payload) {
    var source := Folded(Show(GetOr(p, "source", Str(""))));
    var scanner := Folded(Show(GetOr(p, "scanner_name", Str(""))));
    var status := Folded(Show(GetOr(p, "status", Str(""))));
    if source == "offline" || source == "reference_only" || source == "fixture" || status == "missing" || status == "reference_only"
    then false
    else
      source == "real_scanner" &&
      (IsTrue(Get(p, "production_evidence")) || scanner == "pip-audit" || scanner == "osv" || scanner == "safety" || scanner == "grype")
  }

  function SourceName(p: Payload): string {
    if Truthy(Get(p, "source")) then Show(Get(p, "source"))
    else if Truthy(Get(p, "scanner_name")) then Show(Get(p, "scanner_name"))
    else if Truthy(Get(p, "status")) then Show(Get(p, "status"))
    else "unknown"
  }

  function ScannerConfiguredFinding(p: Option<Payload>, accepted: bool): Finding {
    if p.Some? && RealScannerReport(p.value) then
      Finding("scanner.configured", "pass", Words(ScannerReal), false)
    else
      Waivable("scanner.configured",
               if p.Some? then "scanner evidence is not production evidence: " + SourceName(p.value)
               else Words(ScannerMissing), accepted)
  }

  function ScanFinding(p: Option<Payload>, accepted: bool): Finding {
    if p.None? then Waivable("scanner.policy", Words(ScanMissing), accepted)
    else if !RealScannerReport(p.value) then
      Waivable("scanner.policy", Words(ScanNotReal), accepted)
    else
      var status := NormalizedStatus(p.value);
      var policy := LowerAll(Show(GetOr(p.value, "policy_decision", Str(""))));
      var passed := status == "pass" || policy == "pass";
      Finding("scanner.policy", if passed then "pass" else "fail",
              if Truthy(Get(p.value, "reason")) then Show(Get(p.value, "reason"))
              else "scanner status=" + status + " policy_decision=" + policy, !passed)
  }

  function LicenseFinding(p: Option<Payload>, accepted: bool): Finding {
    if p.None? || !RealScannerReport(p.value) then
      Waivable("scanner.license", Words(LicenseMissing), accepted)
    else
      var coverage := Get(p.value, "coverage");
      if coverage.Obj? && IsTrue(Get(coverage.fields, "license_scan")) then
        Finding("scanner.license", "pass", Words(LicensePresent), false)
      else
        Waivable("scanner.license", Words(LicenseUncovered), accepted)
  }

  // Registry and drills.

  function StatusFinding(checkId: string, p: Option<Payload>): Finding {
    match p
    case None => Required(checkId, checkId + " evidence is missing")
    case Some(evidence) =>
      var status := NormalizedStatus(evidence);
      Finding(checkId, if status == "pass" then "pass" else "fail", ReasonOr(evidence, checkId + " status=" + status),
              status != "pass")
  }

  // ---------- The decision ----------

  function SuppressedDoctorIds(scan: Finding, audit: seq<Finding>): set<string> {
    (if scan.checkId == "scanner.policy" then {"scanner.configured"} else {}) +
    (if exists f :: f in audit && f.checkId == "audit.external_anchor_missing" then {"audit.external_anchor"} else {})
  }

  function ScannerFindings(scan: Option<Payload>, accepted: bool): seq<Finding> {
    [ScannerConfiguredFinding(scan, accepted), ScanFinding(scan, accepted), LicenseFinding(scan, accepted)]
  }

  function Drills(inputs: Inputs): seq<Finding> {
    [StatusFinding("registry.verify", inputs.registry), StatusFinding("revocation.drill", inputs.revocation),
     StatusFinding("quarantine.drill", inputs.quarantine), StatusFinding("rollback.drill", inputs.rollback)]
  }

  /** None where the doctor evidence makes the evaluation raise. */
  function Findings(inputs: Inputs, accepted: bool): Option<seq<Finding>> {
    var scan, audit := ScanFinding(inputs.scan, accepted), AuditFindings(inputs.audit, accepted);
    match DoctorFindings(inputs.doctor, SuppressedDoctorIds(scan, audit))
    case None => None
    case Some(doctor) =>
      Some([CiFinding(inputs.ci, accepted)] + doctor + [BwrapFinding(inputs.bwrap)] + audit
           + ScannerFindings(inputs.scan, accepted) + Drills(inputs))
  }

  predicate Blocks(f: Finding) {
    f.blocking || f.status == "fail"
  }

  predicate Qualifies(f: Finding) {
    f.status == "warn" || f.status == "skipped" || Mentions(LowerAll(f.reason), "accepted risk")
  }

  function Decide(findings: seq<Finding>): Decision {
    if exists f :: f in findings && Blocks(f) then NoGo
    else if exists f :: f in findings && Qualifies(f) then ControlledGo
    else Go
  }

  function Evaluate(inputs: Inputs, accepted: bool): Option<Decision> {
    match Findings(inputs, accepted)
    case None => None
    case Some(findings) => Some(Decide(findings))
  }

  method CollectDoctorFindings(p: Option<Payload>, suppressed: set<string>) returns (r: Option<seq<Finding>>)
    ensures r == DoctorFindings(p, suppressed)
  {
    if p.None? { return Some([Required("doctor.production", Words(DoctorMissing))]); }
    var items := DoctorItems(p.value);
    if items.None? { return None; }
    var findings: seq<Finding> := [];
    var suppressedBlocking, anyBlocking := false, false;
    for i := 0 to |items.value|
      invariant findings == ItemFindings(items.value[..i], suppressed)
      invariant anyBlocking <==> exists f :: f in findings && f.blocking
      invariant suppressedBlocking <==> SuppressedBlocking(items.value[..i], suppressed)
    {
      assert items.value[..i + 1][..i] == items.value[..i];
      var item := items.value[i];
      SuppressedNext(items.value, i, suppressed);
      if item.Obj? {
        var found := ItemFinding(item.fields);
        if found.checkId in suppressed {
          suppressedBlocking := suppressedBlocking || found.blocking;
        } else {
          findings := findings + [found];
          anyBlocking := anyBlocking || found.blocking;
        }
      }
    }
    assert items.value[..|items.value|] == items.value;
    var blocking := Truthy(Get(p.value, "production_blocking"));
    if blocking && anyBlocking {
      findings := findings + [DOCTOR_BLOCKING];
    } else if blocking && suppressedBlocking {
      findings := findings + [DOCTOR_REPRESENTED];
    }
    if findings == [] {
      findings := [Finding("doctor.production", NormalizedStatus(p.value), Words(DoctorParsed), false)];
    }
    return Some(findings);
  }

  lemma SuppressedNext(items: seq<Json>, i: nat, suppressed: set<string>)
    requires i < |items|
    ensures SuppressedBlocking(items[..i + 1], suppressed) <==>
              SuppressedBlocking(items[..i], suppressed) || SuppressedBlocking([items[i]], suppressed)
  {
    if SuppressedBlocking(items[..i], suppressed) {
      var k :| 0 <= k < i && items[..i][k].Obj?
               && ItemFinding(items[..i][k].fields).checkId in suppressed && ItemFinding(items[..i][k].fields).blocking;
      assert items[..i + 1][k] == items[..i][k];
    }
    if SuppressedBlocking([items[i]], suppressed) {
      assert items[..i + 1][i] == [items[i]][0];
    }
    if SuppressedBlocking(items[..i + 1], suppressed) {
      var k :| 0 <= k < i + 1 && items[..i + 1][k].Obj?
               && ItemFinding(items[..i + 1][k].fields).checkId in suppressed && ItemFinding(items[..i + 1][k].fields).blocking;
      if k < i {
        assert items[..i][k] == items[..i + 1][k];
      } else {
        assert [items[i]][0] == items[..i + 1][k];
      }
    }
  }

  method DecideRelease(findings: seq<Finding>) returns (decision: Decision)
    ensures decision == Decide(findings)
  {
    hide Blocks, Qualifies;
    var blocked, qualified := false, false;
    for i := 0 to |findings|
      invariant blocked <==> exists f :: f in findings[..i] && Blocks(f)
      invariant qualified <==> exists f :: f in findings[..i] && Qualifies(f)
    {
      assert findings[..i + 1] == findings[..i] + [findings[i]];
      blocked := blocked || Blocks(findings[i]);
      qualified := qualified || Qualifies(findings[i]);
    }
    assert findings[..|findings|] == findings;
    return if blocked then NoGo else if qualified then ControlledGo else Go;
  }

  method EvaluateReleaseGate(inputs: Inputs, accepted: bool) returns (r: Option<Decision>)
    ensures r == Evaluate(inputs, accepted)
  {
    hide CiFinding, DoctorFindings, BwrapFinding, AuditFindings, ScannerFindings, ScanFinding, Drills, Decide, SuppressedDoctorIds;
    var findings := [CiFinding(inputs.ci, accepted)];
    var audit := AuditFindings(inputs.audit, accepted);
    var doctor := CollectDoctorFindings(inputs.doctor, SuppressedDoctorIds(ScanFinding(inputs.scan, accepted), audit));
    if doctor.None? { return None; }
    findings := findings + doctor.value;
    findings := findings + [BwrapFinding(inputs.bwrap)];
    findings := findings + audit;
    findings := findings + ScannerFindings(inputs.scan, accepted);
    findings := findings + Drills(inputs);
    var decision := DecideRelease(findings);
    r := Some(decision);
  }

  // ---------- Accepted risks ----------

  /** The finding with risks accepted is the same, or a warning for a blocking failure. */
  ghost predicate Softened(strict: Finding, lenient: Finding) {
    lenient == strict || (strict.blocking && lenient.status == "warn" && !lenient.blocking && lenient.checkId == strict.checkId)
  }

  ghost predicate AllSoftened(strict: seq<Finding>, lenient: seq<Finding>) {
    |strict| == |lenient| && forall i :: 0 <= i < |strict| ==> Softened(strict[i], lenient[i])
  }

  lemma SoftenedAppend(a: seq<Finding>, b: seq<Finding>, c: seq<Finding>, d: seq<Finding>)
    requires AllSoftened(a, b) && AllSoftened(c, d)
    ensures AllSoftened(a + c, b + d)
  {
    hide Softened;
  }

  lemma SoftenedSame(a: seq<Finding>)
    ensures AllSoftened(a, a)
  {
  }

  lemma CiSoftened(p: Option<Payload>)
    ensures Softened(CiFinding(p, false), CiFinding(p, true))
  {
    hide CiStatus, ReasonOr;
  }

  lemma AuditSoftened(p: Option<Payload>)
    ensures AllSoftened(AuditFindings(p, false), AuditFindings(p, true))
  {
    hide AuditLocalVerified, Anchored;
  }

  lemma ScannerSoftened(p: Option<Payload>)
    ensures AllSoftened(ScannerFindings(p, false), ScannerFindings(p, true))
  {
    hide Words, RISK, RealScannerReport, SourceName, NormalizedStatus, IsTrue, Truthy, Show;
    assert Softened(ScannerConfiguredFinding(p, false), ScannerConfiguredFinding(p, true));
    assert Softened(ScanFinding(p, false), ScanFinding(p, true));
    assert Softened(LicenseFinding(p, false), LicenseFinding(p, true));
  }

  lemma AcceptingSoftens(inputs: Inputs)
    ensures Findings(inputs, true).Some? <==> Findings(inputs, false).Some?
    ensures Findings(inputs, true).Some? ==> AllSoftened(Findings(inputs, false).value, Findings(inputs, true).value)
  {
    SameSuppressed(inputs);
    CiSoftened(inputs.ci);
    AuditSoftened(inputs.audit);
    ScannerSoftened(inputs.scan);
    SoftenedSame(Drills(inputs));
    SoftenedSame([BwrapFinding(inputs.bwrap)]);
    hide CiFinding, DoctorFindings, BwrapFinding, AuditFindings, ScannerFindings, ScanFinding, Drills, SuppressedDoctorIds, Softened;
    var ids := SuppressedDoctorIds(ScanFinding(inputs.scan, false), AuditFindings(inputs.audit, false));
    if DoctorFindings(inputs.doctor, ids).Some? {
      var doctor, bwrap := DoctorFindings(inputs.doctor, ids).value, [BwrapFinding(inputs.bwrap)];
      var ci0, ci1 := [CiFinding(inputs.ci, false)], [CiFinding(inputs.ci, true)];
      var audit0, audit1 := AuditFindings(inputs.audit, false), AuditFindings(inputs.audit, true);
      var scan0, scan1 := ScannerFindings(inputs.scan, false), ScannerFindings(inputs.scan, true);
      SoftenedSame(doctor);
      assert AllSoftened(ci0, ci1);
      hide AllSoftened;
      SoftenedAppend(ci0, ci1, doctor, doctor);
      SoftenedAppend(ci0 + doctor, ci1 + doctor, bwrap, bwrap);
      SoftenedAppend(ci0 + doctor + bwrap, ci1 + doctor + bwrap, audit0, audit1);
      SoftenedAppend(ci0 + doctor + bwrap + audit0, ci1 + doctor + bwrap + audit1, scan0, scan1);
      SoftenedAppend(ci0 + doctor + bwrap + audit0 + scan0, ci1 + doctor + bwrap + audit1 + scan1, Drills(inputs), Drills(inputs));
    }
  }

  lemma AnchorFindingIs(p: Option<Payload>, accepted: bool)
    ensures (exists f :: f in AuditFindings(p, accepted) && f.checkId == "audit.external_anchor_missing") <==>
              p.Some? && AuditLocalVerified(p.value) && !Anchored(p.value)
  {
    hide Words, RISK, AuditLocalVerified, Anchored;
    var findings := AuditFindings(p, accepted);
    assert forall f :: f in findings ==> f == findings[0] || f == findings[|findings| - 1];
    assert findings[|findings| - 1] in findings;
  }

  lemma SameSuppressed(inputs: Inputs)
    ensures SuppressedDoctorIds(ScanFinding(inputs.scan, true), AuditFindings(inputs.audit, true)) ==
            SuppressedDoctorIds(ScanFinding(inputs.scan, false), AuditFindings(inputs.audit, false))
  {
    AnchorFindingIs(inputs.audit, true);
    AnchorFindingIs(inputs.audit, false);
    hide AuditFindings, AuditLocalVerified, Anchored, RealScannerReport, NormalizedStatus;
    assert ScanFinding(inputs.scan, true).checkId == ScanFinding(inputs.scan, false).checkId;
    hide ScanFinding;
  }

  /** For all evidence, accepting risks changes nothing, or turns NO_GO into CONTROLLED_GO: it never
      lowers the decision and never creates a GO. */
  lemma AcceptingNeverLowersNorCreatesGo(inputs: Inputs)
    ensures var strict, lenient := Evaluate(inputs, false), Evaluate(inputs, true);
            lenient == strict || (strict == Some(NoGo) && lenient == Some(ControlledGo))
  {
    AcceptingSoftens(inputs);
    if Findings(inputs, true).Some? {
      SoftenedDecision(Findings(inputs, false).value, Findings(inputs, true).value);
    }
  }

  lemma SoftenedDecision(strict: seq<Finding>, lenient: seq<Finding>)
    requires AllSoftened(strict, lenient)
    ensures Decide(lenient) == Decide(strict) || (Decide(strict) == NoGo && Decide(lenient) == ControlledGo)
  {
    if strict != lenient {
      var i :| 0 <= i < |strict| && strict[i] != lenient[i];
      assert strict[i] in strict && Blocks(strict[i]);
      assert lenient[i] in lenient && Qualifies(lenient[i]);
    }
  }

  /** No acceptance waives the bubblewrap evidence, the local audit verification or the four registry
      and drill findings: unless all of them pass the decision is NO_GO. */
  lemma NeverWaived(inputs: Inputs, accepted: bool)
    requires Evaluate(inputs, accepted).Some? && Evaluate(inputs, accepted) != Some(NoGo)
    ensures BwrapFinding(inputs.bwrap).status == "pass"
    ensures inputs.audit.Some? && AuditLocalVerified(inputs.audit.value)
    ensures inputs.registry.Some? && NormalizedStatus(inputs.registry.value) == "pass"
    ensures inputs.revocation.Some? && NormalizedStatus(inputs.revocation.value) == "pass"
    ensures inputs.quarantine.Some? && NormalizedStatus(inputs.quarantine.value) == "pass"
    ensures inputs.rollback.Some? && NormalizedStatus(inputs.rollback.value) == "pass"
    ensures inputs.doctor.Some?
  {
    FindingsInclude(inputs, accepted);
    var findings := Findings(inputs, accepted).value;
    hide Findings;
    assert forall f :: f in findings ==> !Blocks(f);
    BwrapBlocksOrPasses(inputs.bwrap);
    hide BwrapFinding;
    assert !Blocks(AuditFindings(inputs.audit, accepted)[0]);
    hide NormalizedStatus, AuditLocalVerified;
  }

  lemma FindingsInclude(inputs: Inputs, accepted: bool)
    requires Findings(inputs, accepted).Some?
    ensures var findings := Findings(inputs, accepted).value;
            && BwrapFinding(inputs.bwrap) in findings
            && AuditFindings(inputs.audit, accepted)[0] in findings
            && StatusFinding("registry.verify", inputs.registry) in findings
            && StatusFinding("revocation.drill", inputs.revocation) in findings
            && StatusFinding("quarantine.drill", inputs.quarantine) in findings
            && StatusFinding("rollback.drill", inputs.rollback) in findings
            && (inputs.doctor.None? ==> Required("doctor.production", Words(DoctorMissing)) in findings)
  {
    var audit, drills := AuditFindings(inputs.audit, accepted), Drills(inputs);
    var doctor := DoctorFindings(inputs.doctor, SuppressedDoctorIds(ScanFinding(inputs.scan, accepted), audit)).value;
    assert audit[0] in audit;
    assert drills[0] in drills && drills[1] in drills && drills[2] in drills && drills[3] in drills;
    assert inputs.doctor.None? ==> doctor[0] == Required("doctor.production", Words(DoctorMissing));
    assert inputs.doctor.None? ==> doctor[0] in doctor;
    hide CiFinding, DoctorFindings, BwrapFinding, AuditFindings, ScannerFindings, ScanFinding, SuppressedDoctorIds, StatusFinding;
    var findings := Findings(inputs, accepted).value;
    assert findings == [CiFinding(inputs.ci, accepted)] + doctor + [BwrapFinding(inputs.bwrap)] + audit
                       + ScannerFindings(inputs.scan, accepted) + drills;
  }

  lemma BwrapBlocksOrPasses(p: Option<Payload>)
    ensures Blocks(BwrapFinding(p)) <==> BwrapFinding(p).status != "pass"
  {
    hide Words, NormalizedStatus, FailureCheckId, ReasonOr, BackendEnforced, CriticalChecksPass, Folded, Show;
  }

  // ---------- The producer of the bubblewrap evidence ----------

  datatype Mode = Diagnostic | ProductionRequired

  function ModeText(mode: Mode): string {
    if mode == Diagnostic then "diagnostic" else "production-required"
  }

  function SetDefault(p: Payload, key: string, value: Json): Payload {
    if key in p then p else p[key := value]
  }

  /** The producer's own test of the backend: `enforced` need only be truthy. */
  predicate ProducerAcceptsBackend(backend: Json) {
    backend.Obj? && Truthy(Get(backend.fields, "enforced")) && HasCapabilities(backend.fields)
  }

  /** What every finalised report holds; the texts and the empty backend report are given. */
  function Stamped(report: Payload, mode: Mode, environment: string, empty: Json, now: string, advice: string): Payload {
    var p := report["mode" := Str(ModeText(mode))]["environment_class" := Str(environment)];
    SetDefault(SetDefault(SetDefault(SetDefault(p, "sandbox_backend", empty), "checks", Arr([])),
                          "generated_at", Str(now)), "recommendation", Str(advice))
  }

  predicate CriticalPass(p: Payload) {
    CriticalChecksPass(GetOr(p, "checks", Arr([]))) && ProducerAcceptsBackend(GetOr(p, "sandbox_backend", Obj(map[])))
  }

  const HOSTED_REASON :=
    "GitHub-hosted diagnostic completed, but hosted runner output is not target production Linux+bwrap validation evidence"
  const HOSTED_UNSUPPORTED_REASON := "GitHub-hosted bwrap diagnostic is unsupported as production validation evidence"
  const DIAGNOSTIC_REASON := "diagnostic mode is not production validation evidence"
  const PASSED_REASON := "production-required bwrap validation passed"
  const FAILED_REASON := "production-required bwrap validation did not pass"

  /** `_finalize_report`. */
  function FinalizeReport(report: Payload, mode: Mode, environment: string, empty: Json, now: string, advice: string): Payload {
    var p := Stamped(report, mode, environment, empty, now, advice);
    var status := Show(GetOr(p, "status", Str("fail")));
    match mode
    case Diagnostic =>
      var b := p["production_blocking" := Bool(true)];
      if environment == "github_hosted" && status == "pass" then
        b["status" := Str("unsupported_environment")]
         ["reason" := Str(HOSTED_REASON)]
      else SetDefault(b, "reason", Str(if environment == "github_hosted" then HOSTED_UNSUPPORTED_REASON else DIAGNOSTIC_REASON))
    case ProductionRequired =>
      if status == "pass" && CriticalPass(p) then
        SetDefault(p["production_blocking" := Bool(false)], "reason", Str(PASSED_REASON))
      else
        SetDefault(p["status" := Str(if status == "skipped" then "skipped" else "fail")]["production_blocking" := Bool(true)],
                   "reason", Str(FAILED_REASON))
  }

  predicate GatePasses(p: Payload) {
    BwrapFinding(Some(p)).status == "pass"
  }

  lemma FoldedWord(s: string)
    requires s != [] && !IsSpace(s[0]) && !IsSpace(s[|s| - 1])
    requires forall i :: 0 <= i < |s| ==> !('A' <= s[i] <= 'Z')
    ensures Folded(s) == s
  {
    assert StripLeft(s) == s && StripRight(s) == s;
    assert LowerAll(s) == s;
  }

  lemma FoldedModes()
    ensures Folded("diagnostic") == "diagnostic" && Folded("production-required") == "production-required"
    ensures Folded("pass") == "pass" && Folded("fail") == "fail" && Folded("skipped") == "skipped"
  {
    FoldedWord("diagnostic");
    FoldedWord("production-required");
    FoldedWord("pass");
    FoldedWord("fail");
    FoldedWord("skipped");
  }

  lemma StampedFields(report: Payload, mode: Mode, environment: string, empty: Json, now: string, advice: string)
    ensures var p := Stamped(report, mode, environment, empty, now, advice);
            && Get(p, "mode") == Str(ModeText(mode)) && Get(p, "environment_class") == Str(environment)
            && "mode" in p && "environment_class" in p && "checks" in p && "sandbox_backend" in p
  {
    hide ModeText;
  }

  /** The fields of a finalised report that the gate reads. */
  lemma FinalizedFields(report: Payload, mode: Mode, environment: string, empty: Json, now: string, advice: string)
    ensures var s, p := Stamped(report, mode, environment, empty, now, advice),
                        FinalizeReport(report, mode, environment, empty, now, advice);
            && (forall k :: (k == "mode" || k == "environment_class" || k == "checks" || k == "sandbox_backend") ==>
                  k in p && k in s && p[k] == s[k])
            && p["mode"] == Str(ModeText(mode)) && p["environment_class"] == Str(environment)
            && "production_blocking" in p
            && (p["production_blocking"] == Bool(false) <==>
                  mode == ProductionRequired && Show(GetOr(s, "status", Str("fail"))) == "pass" && CriticalPass(s))
            && (mode == ProductionRequired ==>
                  "status" in p &&
                  if p["production_blocking"] == Bool(false) then Show(p["status"]) == "pass"
                  else p["status"] == Str("skipped") || p["status"] == Str("fail"))
  {
    StampedFields(report, mode, environment, empty, now, advice);
    hide Stamped, CriticalPass, ModeText;
  }

  /** The gate passes a finalised report exactly if it is production-required, non-blocking and not
      from a hosted runner, and its backend says `enforced` is true and not merely something truthy. */
  lemma GatePassesFinalizedIff(report: Payload, mode: Mode, environment: string, empty: Json, now: string, advice: string)
    ensures var p := FinalizeReport(report, mode, environment, empty, now, advice);
            GatePasses(p) <==>
              && mode == ProductionRequired
              && Get(p, "production_blocking") == Bool(false)
              && Folded(environment) != "github_hosted"
              && (var backend := Get(p, "sandbox_backend"); backend.Obj? && IsTrue(Get(backend.fields, "enforced")))
  {
    var s, p := Stamped(report, mode, environment, empty, now, advice),
                FinalizeReport(report, mode, environment, empty, now, advice);
    FinalizedFields(report, mode, environment, empty, now, advice);
    FoldedModes();
    hide Stamped, FinalizeReport, Folded, CriticalChecksPass, HasCapabilities, GatePasses;
    assert p["sandbox_backend"] == s["sandbox_backend"] && p["checks"] == s["checks"];
    GateReads(p, mode, environment);
  }

  /** What the gate makes of a report with these fields. */
  lemma GateReads(p: Payload, mode: Mode, environment: string)
    requires "mode" in p && p["mode"] == Str(ModeText(mode))
    requires "environment_class" in p && p["environment_class"] == Str(environment)
    ensures GatePasses(p) <==>
              && mode == ProductionRequired && Folded(environment) != "github_hosted"
              && NormalizedStatus(p) == "pass"
              && BackendEnforced(Get(p, "sandbox_backend")) && CriticalChecksPass(Get(p, "checks"))
  {
    FoldedModes();
    hide Words, Folded, NormalizedStatus, BackendEnforced, CriticalChecksPass, FailureCheckId, ReasonOr;
  }

  /** Where the backend's `enforced` is a boolean, as the backends report it, the gate agrees with the
      producer: it passes exactly the production-required, non-blocking, not hosted reports. */
  lemma GateAgreesWithProducer(report: Payload, mode: Mode, environment: string, empty: Json, now: string, advice: string)
    requires var backend := Get(Stamped(report, mode, environment, empty, now, advice), "sandbox_backend");
             backend.Obj? && Get(backend.fields, "enforced").Bool?
    ensures var p := FinalizeReport(report, mode, environment, empty, now, advice);
            GatePasses(p) <==>
              mode == ProductionRequired && Get(p, "production_blocking") == Bool(false) && Folded(environment) != "github_hosted"
  {
    GatePassesFinalizedIff(report, mode, environment, empty, now, advice);
    FinalizedFields(report, mode, environment, empty, now, advice);
    hide Stamped, FinalizeReport, Folded, CriticalChecksPass, HasCapabilities, GatePasses;
  }

  // ---------- What finalising means ----------

  /** The report proves the target environment: it was asked for as production evidence, passed, and
      holds every critical check and every required capability. */
  predicate Proves(report: Payload, mode: Mode, empty: Json) {
    && mode == ProductionRequired
    && Show(GetOr(report, "status", Str("fail"))) == "pass"
    && CriticalChecksPass(GetOr(report, "checks", Arr([])))
    && ProducerAcceptsBackend(GetOr(report, "sandbox_backend", empty))
  }

  /** Nothing reported is lost, and only the verdict is rewritten. */
  ghost predicate EvidenceKept(report: Payload, p: Payload) {
    forall k :: k in report && !Verdict(k) ==> k in p && p[k] == report[k]
  }

  predicate Verdict(key: string) {
    key == "mode" || key == "environment_class" || key == "status" || key == "reason" || key == "production_blocking"
  }

  lemma StampedEvidence(report: Payload, mode: Mode, environment: string, empty: Json, now: string, advice: string)
    ensures var s := Stamped(report, mode, environment, empty, now, advice);
            && EvidenceKept(report, s)
            && GetOr(s, "status", Str("fail")) == GetOr(report, "status", Str("fail"))
            && "checks" in s && s["checks"] == GetOr(report, "checks", Arr([]))
            && "sandbox_backend" in s && s["sandbox_backend"] == GetOr(report, "sandbox_backend", empty)
  {
    hide ModeText;
  }

  lemma VerdictOnly(report: Payload, mode: Mode, environment: string, empty: Json, now: string, advice: string)
    ensures var s, p := Stamped(report, mode, environment, empty, now, advice),
                        FinalizeReport(report, mode, environment, empty, now, advice);
            EvidenceKept(s, p)
  {
    hide Stamped, CriticalPass, ModeText, Show;
  }

  /** A finalised report is non-blocking exactly if the report proves the target environment, and keeps
      all the evidence it was made from. */
  lemma FinalizedMeaning(report: Payload, mode: Mode, environment: string, empty: Json, now: string, advice: string)
    ensures var p := FinalizeReport(report, mode, environment, empty, now, advice);
            && Get(p, "production_blocking") == Bool(!Proves(report, mode, empty))
            && EvidenceKept(report, p)
  {
    StampedEvidence(report, mode, environment, empty, now, advice);
    VerdictOnly(report, mode, environment, empty, now, advice);
    BlockingIsBoolean(report, mode, environment, empty, now, advice);
    FinalizedFields(report, mode, environment, empty, now, advice);
    hide Stamped, FinalizeReport, CriticalChecksPass, ProducerAcceptsBackend, Show;
  }

  lemma BlockingIsBoolean(report: Payload, mode: Mode, environment: string, empty: Json, now: string, advice: string)
    ensures Get(FinalizeReport(report, mode, environment, empty, now, advice), "production_blocking").Bool?
  {
    hide Stamped, CriticalPass, Show;
  }

  /** A report whose backend says `enforced` with something truthy that is not true is non-blocking
      for its producer, and the gate rejects it. */
  lemma TruthyIsRejected(report: Payload, environment: string, empty: Json, now: string, advice: string)
    requires Proves(report, ProductionRequired, empty)
    requires !IsTrue(Get(GetOr(report, "sandbox_backend", empty).fields, "enforced"))
    ensures var p := FinalizeReport(report, ProductionRequired, environment, empty, now, advice);
            Get(p, "production_blocking") == Bool(false) && !GatePasses(p)
  {
    FinalizedMeaning(report, ProductionRequired, environment, empty, now, advice);
    GatePassesFinalizedIff(report, ProductionRequired, environment, empty, now, advice);
    FinalizedFields(report, ProductionRequired, environment, empty, now, advice);
    StampedEvidence(report, ProductionRequired, environment, empty, now, advice);
    hide Stamped, FinalizeReport, CriticalChecksPass, GatePasses, Folded, Show, HasCapabilities;
  }

  ghost function PassingChecks(ids: set<string>): seq<Json> {
    if ids == {} then []
    else
      var id :| id in ids;
      PassingChecks(ids - {id}) + [Obj(map["check_id" := Str(id), "status" := Str("pass")])]
  }

  lemma {:induction false} PassingChecksPass(ids: set<string>)
    ensures forall id :: id in ids ==> id in Statuses(PassingChecks(ids)) && Statuses(PassingChecks(ids))[id] == "pass"
    decreases |ids|
  {
    if ids != {} {
      var id :| id in ids && PassingChecks(ids) ==
        PassingChecks(ids - {id}) + [Obj(map["check_id" := Str(id), "status" := Str("pass")])];
      PassingChecksPass(ids - {id});
      var checks := PassingChecks(ids);
      assert checks[..|checks| - 1] == PassingChecks(ids - {id});
    }
  }

  /** A passing report with every critical check, whose backend gives 1 for `enforced`. */
  ghost function TruthyReport(): Payload {
    map["status" := Str("pass"),
        "checks" := Arr(PassingChecks(CRITICAL_CHECKS)),
        "sandbox_backend" := Obj(map["enforced" := Num(1),
                                     "capabilities" := Obj(map name | name in CAPABILITIES :: Bool(true))])]
  }

  /** The two disagree on it. */
  lemma TruthyReportIsRejected(environment: string, empty: Json, now: string, advice: string)
    ensures var p := FinalizeReport(TruthyReport(), ProductionRequired, environment, empty, now, advice);
            Get(p, "production_blocking") == Bool(false) && !GatePasses(p)
  {
    PassingChecksPass(CRITICAL_CHECKS);
    TruthyReportProves(empty);
    hide FinalizeReport, GatePasses, Proves, PassingChecks, CRITICAL_CHECKS, CAPABILITIES;
    TruthyIsRejected(TruthyReport(), environment, empty, now, advice);
  }

  lemma TruthyReportProves(empty: Json)
    ensures Proves(TruthyReport(), ProductionRequired, empty)
  {
    PassingChecksPass(CRITICAL_CHECKS);
    hide CRITICAL_CHECKS, CAPABILITIES, Statuses, PassingChecks;
  }

  method StampReport(report: Payload, mode: Mode, environment: string, empty: Json, now: string, advice: string)
    returns (p: Payload)
    ensures p == Stamped(report, mode, environment, empty, now, advice)
  {
    p := report["mode" := Str(ModeText(mode))];
    p := p["environment_class" := Str(environment)];
    hide SetDefault, ModeText;
    p := SetDefault(p, "sandbox_backend", empty);
    p := SetDefault(p, "checks", Arr([]));
    p := SetDefault(p, "generated_at", Str(now));
    p := SetDefault(p, "recommendation", Str(advice));
  }

  method Finalize(report: Payload, mode: Mode, environment: string, empty: Json, now: string, advice: string)
    returns (p: Payload)
    ensures p == FinalizeReport(report, mode, environment, empty, now, advice)
    ensures Get(p, "production_blocking") == Bool(!Proves(report, mode, empty))
    ensures EvidenceKept(report, p)
  {
    FinalizedMeaning(report, mode, environment, empty, now, advice);
    hide Proves, EvidenceKept, Get;
    hide Stamped, SetDefault, Show, GetOr, CriticalPass;
    p := StampReport(report, mode, environment, empty, now, advice);
    var status := Show(GetOr(p, "status", Str("fail")));
    if mode == Diagnostic {
      p := p["production_blocking" := Bool(true)];
      if environment == "github_hosted" && status == "pass" {
        p := p["status" := Str("unsupported_environment")];
        p := p["reason" := Str(HOSTED_REASON)];
      } else {
        p := SetDefault(p, "reason", Str(if environment == "github_hosted" then HOSTED_UNSUPPORTED_REASON else DIAGNOSTIC_REASON));
      }
      return;
    }
    if status == "pass" && CriticalPass(p) {
      p := p["production_blocking" := Bool(false)];
      p := SetDefault(p, "reason", Str(PASSED_REASON));
      return;
    }
    p := p["status" := Str(if status == "skipped" then "skipped" else "fail")];
    p := p["production_blocking" := Bool(true)];
    p := SetDefault(p, "reason", Str(FAILED_REASON));
  }

  /** What finalising leaves in a report. */
  ghost predicate Settled(p: Payload, mode: Mode, environment: string) {
    && "mode" in p && p["mode"] == Str(ModeText(mode))
    && "environment_class" in p && p["environment_class"] == Str(environment)
    && "sandbox_backend" in p && "checks" in p && "generated_at" in p && "recommendation" in p
    && "reason" in p && "production_blocking" in p
    && match mode
       case Diagnostic =>
         p["production_blocking"] == Bool(true)
         && !(environment == "github_hosted" && Show(GetOr(p, "status", Str("fail"))) == "pass")
       case ProductionRequired =>
         "status" in p &&
         if Show(p["status"]) == "pass" then CriticalPass(p) && p["production_blocking"] == Bool(false)
         else p["production_blocking"] == Bool(true) && (p["status"] == Str("skipped") || p["status"] == Str("fail"))
  }

  lemma StampedKeys(report: Payload, mode: Mode, environment: string, empty: Json, now: string, advice: string)
    ensures var s := Stamped(report, mode, environment, empty, now, advice);
            && "mode" in s && s["mode"] == Str(ModeText(mode))
            && "environment_class" in s && s["environment_class"] == Str(environment)
            && "sandbox_backend" in s && "checks" in s && "generated_at" in s && "recommendation" in s
  {
    hide ModeText;
  }

  lemma FinalizedSettles(report: Payload, mode: Mode, environment: string, empty: Json, now: string, advice: string)
    ensures Settled(FinalizeReport(report, mode, environment, empty, now, advice), mode, environment)
  {
    StampedKeys(report, mode, environment, empty, now, advice);
    hide Stamped, ModeText, CriticalChecksPass, ProducerAcceptsBackend, HOSTED_REASON, HOSTED_UNSUPPORTED_REASON,
         DIAGNOSTIC_REASON, PASSED_REASON, FAILED_REASON;
  }

  lemma SettledStaysStamped(p: Payload, mode: Mode, environment: string, empty: Json, now: string, advice: string)
    requires Settled(p, mode, environment)
    ensures Stamped(p, mode, environment, empty, now, advice) == p
  {
    hide ModeText, CriticalPass, Show;
    assert p["mode" := Str(ModeText(mode))] == p;
    assert p["environment_class" := Str(environment)] == p;
  }

  lemma SettledStays(p: Payload, mode: Mode, environment: string, empty: Json, now: string, advice: string)
    requires Settled(p, mode, environment)
    ensures FinalizeReport(p, mode, environment, empty, now, advice) == p
  {
    SettledStaysStamped(p, mode, environment, empty, now, advice);
    hide Stamped, ModeText, CriticalPass, HOSTED_REASON, HOSTED_UNSUPPORTED_REASON, DIAGNOSTIC_REASON, PASSED_REASON,
         FAILED_REASON;
    assert p["production_blocking" := p["production_blocking"]] == p;
    if mode == ProductionRequired {
      assert p["status" := p["status"]] == p;
    }
  }

  /** Finalising a finalised report changes nothing. */
  lemma FinalizedTwice(report: Payload, mode: Mode, environment: string, empty: Json, now: string, advice: string)
    ensures var p := FinalizeReport(report, mode, environment, empty, now, advice);
            FinalizeReport(p, mode, environment, empty, now, advice) == p
  {
    hide FinalizeReport, Settled;
    FinalizedSettles(report, mode, environment, empty, now, advice);
    SettledStays(FinalizeReport(report, mode, environment, empty, now, advice), mode, environment, empty, now, advice);
  }
}
