/** Signed policy bundles, their deterministic evaluation, what an evaluation means, and how it varies with
    the policy. */
module Policy {
  import opened Prelude
  import opened Names
  import opened Json
  import opened Crypto
  import Canonical
  import Money

  const POLICY_BUNDLE_SCHEMA := "tempus.policy-bundle.v1"

  datatype PolicyError =
    | SchemaUnknown
    | Required(field: string)
    | SignerMissing
    | SignerUntrusted
    | SignerUnknown
    | DigestMismatch
    | SignatureInvalid
    | ConstraintUnknown
    | Invalid(field: string)
    | InvalidContract(field: string)

  // ---- Pattern lists ----

  /** `pattern == "*" || pattern == candidate || candidate.starts_with(pattern minus its star)`. */
  predicate Matches(pattern: string, candidate: string) {
    || pattern == "*"
    || pattern == candidate
    || (HasStar(pattern) && Stem(pattern) <= candidate)
  }

  predicate HasStar(pattern: string) {
    pattern != "" && pattern[|pattern| - 1] == '*'
  }

  /** The pattern without its final star. */
  function Stem(pattern: string): string {
    if HasStar(pattern) then pattern[..|pattern| - 1] else pattern
  }

  function Texts(values: seq<Value>): (r: Option<seq<string>>)
    ensures r.Some? ==> |r.value| == |values|
  {
    if values == [] then Some([]) else
      match (values[0].AsStr(), Texts(values[1..]))
      case (Some(text), Some(more)) => if text == "" then None else Some([text] + more)
      case _ => None
  }

  /** `pattern_list`: a non-empty array of non-empty strings. */
  function PatternList(value: Option<Value>, field: string): Result<seq<string>, PolicyError> {
    match value
    case Some(Array(values)) =>
      if values == [] then Err(Invalid(field)) else
        (match Texts(values)
         case Some(texts) => Ok(texts)
         case None => Err(Invalid(field)))
    case _ => Err(Invalid(field))
  }

  function MatchesPatterns(value: Option<Value>, candidate: string): Result<bool, PolicyError> {
    match PatternList(value, "pattern list")
    case Err(e) => Err(e)
    case Ok(patterns) => Ok(exists p <- patterns :: Matches(p, candidate))
  }

  // ---- Bundles ----

  const POLICY_FIELDS: set<string> := {
    ALLOWED_ACTION_TYPES, ALLOWED_RESOURCES, ALLOWED_EXECUTORS, MAX_TTL_SECONDS,
    MAX_INPUT_BYTES, ALLOWED_CURRENCIES, MAX_MONEY_AMOUNT_MINOR, ALLOWED_BENEFICIARIES
  }

  /** The members of an object, if the value is one. */
  function MemberObject(value: Value, key: string): Option<Value> {
    match value.Get(key)
    case Some(Object(fields)) => Some(Object(fields))
    case _ => None
  }

  /** The first thing wrong with a policy specification. */
  function SpecFault(spec: Value): Option<PolicyError> {
    if spec.GetStr(SCHEMA_VERSION) != Some(POLICY_BUNDLE_SCHEMA) then Some(SchemaUnknown)
    else if StringField(spec, POLICY_VERSION).None? then Some(Required(POLICY_VERSION))
    else if StringField(spec, TENANT_ID).None? then Some(Required(TENANT_ID))
    else match MemberObject(spec, CONSTRAINTS)
      case None => Some(Invalid(CONSTRAINTS))
      case Some(constraints) => ConstraintsFault(constraints)
  }

  function ConstraintsFault(constraints: Value): Option<PolicyError> {
    if constraints.Object? && !(constraints.fields.Keys <= POLICY_FIELDS) then Some(ConstraintUnknown)
    else Either(ListFault(constraints, ALLOWED_ACTION_TYPES),
         Either(ListFault(constraints, ALLOWED_RESOURCES),
         Either(ListFault(constraints, ALLOWED_EXECUTORS),
         Either(LimitFault(constraints, MAX_TTL_SECONDS, 86_400),
         Either(LimitFault(constraints, MAX_INPUT_BYTES, 10_000_000),
         Either(OptionalListFault(constraints, ALLOWED_CURRENCIES),
         Either(OptionalListFault(constraints, ALLOWED_BENEFICIARIES),
                AmountFault(constraints, MAX_MONEY_AMOUNT_MINOR))))))))
  }

  /** The first of two errors. */
  function Either(a: Option<PolicyError>, b: Option<PolicyError>): Option<PolicyError> {
    if a.Some? then a else b
  }

  function ListFault(constraints: Value, field: string): Option<PolicyError> {
    if PatternList(constraints.Get(field), field).Err? then Some(Invalid(field)) else None
  }

  function LimitFault(constraints: Value, field: string, most: u64): Option<PolicyError> {
    match constraints.GetU64(field)
    case Some(limit) => if 1 <= limit <= most then None else Some(Invalid(field))
    case None => Some(Invalid(field))
  }

  function AmountFault(constraints: Value, field: string): Option<PolicyError> {
    if constraints.Get(field).Some? && constraints.GetU64(field).None? then Some(Invalid(field)) else None
  }

  function OptionalListFault(constraints: Value, field: string): Option<PolicyError> {
    if constraints.Get(field).Some? then ListFault(constraints, field) else None
  }

  /** The signed part of a bundle. */
  function BundleBody(bundle: Value): Value {
    bundle.Without({POLICY_DIGEST, SIGNATURE, STATUS, RETIRED_AT})
  }

  /** The first thing wrong with a bundle; nothing is wrong with a bundle that verifies. */
  function BundleFault(c: Crypto, bundle: Value, expectedKey: Option<string>): Option<PolicyError> {
    if bundle.GetStr(SCHEMA_VERSION) != Some(POLICY_BUNDLE_SCHEMA) then Some(SchemaUnknown)
    else SignedFault(c, bundle, StringField(bundle, POLICY_DIGEST), StringField(bundle, SIGNATURE), bundle.Get(SIGNER), expectedKey)
  }

  function SignedFault(c: Crypto, bundle: Value, digest: Option<string>, signature: Option<string>, signer: Option<Value>, expectedKey: Option<string>)
    : Option<PolicyError>
  {
    if digest.None? then Some(Required(POLICY_DIGEST))
    else if signature.None? then Some(Required(SIGNATURE))
    else if signer.None? then Some(SignerMissing)
    else Either(SignerFault(signer.value, expectedKey),
         Either(SignatureFault(c, BundleBody(bundle), digest.value, signature.value, signer.value.GetStr(PUBLIC_KEY).GetOr("")),
                SpecFault(BundleBody(bundle))))
  }

  function SignerFault(signer: Value, expectedKey: Option<string>): Option<PolicyError> {
    if StringField(signer, SIGNER_URI).None? then Some(Required(SIGNER_URI))
    else if StringField(signer, KEY_VERSION).None? then Some(Required(KEY_VERSION))
    else if StringField(signer, ALGORITHM).None? then Some(Required(ALGORITHM))
    else if StringField(signer, PUBLIC_KEY).None? then Some(Required(PUBLIC_KEY))
    else if expectedKey.Some? && signer.GetStr(PUBLIC_KEY) != expectedKey then Some(SignerUntrusted)
    else if signer.GetStr(ALGORITHM) != Some(SIGNATURE_ALGORITHM) then Some(SignerUnknown)
    else None
  }

  function SignatureFault(c: Crypto, body: Value, digest: string, signature: string, key: string): Option<PolicyError> {
    if DigestJson(c, body) != digest then Some(DigestMismatch)
    else if !c.verifies(key, DigestBytes(digest), signature) then Some(SignatureInvalid)
    else None
  }

  // ---- Evaluation ----

  function Utf8Length(text: string): nat {
    if text == "" then 0 else Utf8Width(text[0]) + Utf8Length(text[1..])
  }

  function Utf8Width(c: char): nat {
    if c < '\U{0080}' then 1
    else if c < '\U{0800}' then 2
    else if c < '\U{10000}' then 3
    else 4
  }

  /** The amount of a `money` member, in minor units. */
  function MoneyAmount(money: Value): Option<u64> {
    match money.GetU64("amount_minor")
    case Some(amount) => Some(amount)
    case None =>
      match money.GetStr("amount")
      case Some(text) => Money.ParseMinorUnits(text)
      case None => None
  }

  function MoneyCurrency(money: Value): Option<string> {
    if money.Get("currency").Some? then money.GetStr("currency") else money.GetStr("asset")
  }

  function MoneyAllowed(constraints: Value, money: Value): Result<bool, PolicyError> {
    match (MoneyCurrency(money), MoneyAmount(money))
    case (None, _) => Err(InvalidContract("money.asset"))
    case (Some(_), None) => Err(InvalidContract("money.amount"))
    case (Some(currency), Some(amount)) =>
      Both(OptionalMatch(constraints.Get(ALLOWED_CURRENCIES), currency),
           Both(BeneficiaryAllowed(constraints, money), Ok(WithinAmount(constraints.GetU64(MAX_MONEY_AMOUNT_MINOR), amount))))
  }

  /** One test after another, until one fails. */
  function Both(a: Result<bool, PolicyError>, b: Result<bool, PolicyError>): Result<bool, PolicyError> {
    if a == Ok(true) then b else a
  }

  predicate WithinAmount(maximum: Option<u64>, amount: u64) {
    maximum.None? || amount <= maximum.value
  }

  /** A list that is absent restricts nothing. */
  function OptionalMatch(list: Option<Value>, candidate: string): Result<bool, PolicyError> {
    if list.None? then Ok(true) else MatchesPatterns(list, candidate)
  }

  function BeneficiaryAllowed(constraints: Value, money: Value): Result<bool, PolicyError> {
    if constraints.Get(ALLOWED_BENEFICIARIES).None? then Ok(true)
    else match money.GetStr(BENEFICIARY)
      case None => Err(InvalidContract("money.beneficiary"))
      case Some(beneficiary) => MatchesPatterns(constraints.Get(ALLOWED_BENEFICIARIES), beneficiary)
  }

  datatype PolicyDecision = PolicyDecision(
    allowed: bool,
    reasonCodes: seq<string>,
    evidenceDigest: string,
    executorConstraints: Value
  ) {
    function Decision(): string { if allowed then ALLOWED else BLOCKED }
  }

  /** `intent.input`, an empty object when absent. */
  function IntentInput(intent: Value): Value {
    intent.Get("input").GetOr(Object(map[]))
  }

  /** `intent.money`, unless absent or null. */
  function IntentMoney(intent: Value): Option<Value> {
    if intent.Get(MONEY) == Some(Null) then None else intent.Get(MONEY)
  }

  function DenyIf(denied: bool, reason: string): seq<string> {
    if denied then [reason] else []
  }

  function MoneyReasons(constraints: Value, intent: Value): Result<seq<string>, PolicyError> {
    match IntentMoney(intent)
    case None => Ok([])
    case Some(money) =>
      match MoneyAllowed(constraints, money)
      case Err(e) => Err(e)
      case Ok(ok) => Ok(DenyIf(!ok, "POLICY_MONEY_DENIED"))
  }

  /** Every reason the policy has against an intent. The check for fractional numbers in the
      input never fires, since numbers are integers here. */
  function DenialReasons(bundle: Value, constraints: Value, intent: Value, ttlSeconds: u64): Result<seq<string>, PolicyError> {
    if StringField(intent, TENANT_ID).None? || StringField(bundle, TENANT_ID).None? then Err(Required(TENANT_ID))
    else Reasons(StringField(bundle, TENANT_ID) in {Some("*"), StringField(intent, TENANT_ID)},
                 FieldAllowed(intent, ACTION_TYPE, constraints.Get(ALLOWED_ACTION_TYPES)),
                 FieldAllowed(intent, RESOURCE, constraints.Get(ALLOWED_RESOURCES)),
                 WithinLimit(constraints, MAX_TTL_SECONDS, ttlSeconds),
                 WithinLimit(constraints, MAX_INPUT_BYTES, Utf8Length(Canonical.Text(IntentInput(intent)))),
                 MoneyReasons(constraints, intent))
  }

  function FieldAllowed(intent: Value, field: string, patterns: Option<Value>): Result<bool, PolicyError> {
    match StringField(intent, field)
    case None => Err(Required(field))
    case Some(text) => MatchesPatterns(patterns, text)
  }

  function WithinLimit(constraints: Value, field: string, amount: nat): Result<bool, PolicyError> {
    match constraints.GetU64(field)
    case None => Err(Invalid(field))
    case Some(limit) => Ok(amount <= limit)
  }

  /** The reasons the tests give, or the first error among them. */
  function Reasons(tenantOk: bool, action: Result<bool, PolicyError>, resource: Result<bool, PolicyError>, ttl: Result<bool, PolicyError>,
                   input: Result<bool, PolicyError>, money: Result<seq<string>, PolicyError>): Result<seq<string>, PolicyError> {
    match (action, resource, ttl, input, money)
    case (Ok(actionOk), Ok(resourceOk), Ok(ttlOk), Ok(inputOk), Ok(moneyReasons)) => Ok(
      DenyIf(!tenantOk, "POLICY_TENANT_DENIED")
      + DenyIf(!actionOk, "POLICY_ACTION_DENIED")
      + DenyIf(!resourceOk, "POLICY_RESOURCE_DENIED")
      + DenyIf(!ttlOk, "POLICY_TTL_DENIED")
      + DenyIf(!inputOk, "POLICY_INPUT_TOO_LARGE")
      + moneyReasons)
    case _ => Err(FirstError(action, resource, ttl, input, money))
  }

  function FirstError(action: Result<bool, PolicyError>, resource: Result<bool, PolicyError>, ttl: Result<bool, PolicyError>,
                      input: Result<bool, PolicyError>, money: Result<seq<string>, PolicyError>): PolicyError
    requires action.Err? || resource.Err? || ttl.Err? || input.Err? || money.Err?
  {
    if action.Err? then action.error
    else if resource.Err? then resource.error
    else if ttl.Err? then ttl.error
    else if input.Err? then input.error
    else money.error
  }

  function Evidence(policyDigest: string, intent: Value, ttlSeconds: u64): Value {
    Object(map[
      SCHEMA_VERSION := String("tempus.policy-evidence.v1"),
      POLICY_DIGEST := String(policyDigest),
      INTENT := intent,
      "ttl_seconds" := Number(ttlSeconds)
    ])
  }

  function ExecutorConstraints(constraints: Value): Value {
    Object(map[ALLOWED_EXECUTORS := constraints.Get(ALLOWED_EXECUTORS).GetOr(Array([]))])
  }

  function EvaluatePolicy(c: Crypto, bundle: Value, intent: Value, ttlSeconds: u64): Result<PolicyDecision, PolicyError> {
    match BundleFault(c, bundle, None)
    case Some(e) => Err(e)
    case None =>
      match MemberObject(bundle, CONSTRAINTS)
      case None => Err(Invalid(CONSTRAINTS))
      case Some(constraints) => Assessed(c, StringField(bundle, POLICY_DIGEST), constraints, intent, ttlSeconds,
                                          DenialReasons(bundle, constraints, intent, ttlSeconds))
  }

  function Assessed(c: Crypto, digest: Option<string>, constraints: Value, intent: Value, ttlSeconds: u64, reasons: Result<seq<string>, PolicyError>)
    : Result<PolicyDecision, PolicyError>
  {
    match (digest, reasons)
    case (None, _) => Err(Required(POLICY_DIGEST))
    case (Some(_), Err(e)) => Err(e)
    case (Some(d), Ok(against)) => Ok(PolicyDecision(
      against == [],
      if against == [] then [POLICY_ALLOWED] else against,
      DigestJson(c, Evidence(d, intent, ttlSeconds)),
      ExecutorConstraints(constraints)))
  }

  function ExecutorAllowed(c: Crypto, bundle: Value, executorId: string): Result<bool, PolicyError> {
    match BundleFault(c, bundle, None)
    case Some(e) => Err(e)
    case None =>
      match bundle.Get(CONSTRAINTS)
      case None => Err(Invalid(CONSTRAINTS))
      case Some(constraints) => MatchesPatterns(constraints.Get(ALLOWED_EXECUTORS), executorId)
  }

  // ======== What an evaluation means, and how it varies with the policy.

  // ---- Patterns ----

  /** Every text one pattern admits is admitted by the other. */
  ghost predicate Covers(wide: string, narrow: string) {
    forall candidate: string {:trigger Matches(narrow, candidate)} ::
      Matches(narrow, candidate) ==> Matches(wide, candidate)
  }

  /** Covering is decided by a comparison of the two patterns. */
  lemma CoversExactly(wide: string, narrow: string)
    ensures Covers(wide, narrow) <==> wide == narrow || (HasStar(wide) && Stem(wide) <= Stem(narrow))
  {
    if wide == narrow {
    } else if HasStar(wide) && Stem(wide) <= Stem(narrow) {
      forall c | Matches(narrow, c) ensures Matches(wide, c) {
        if narrow == "*" { assert Stem(narrow) == ""; }
        assert Stem(narrow) <= c;
      }
    } else {
      var first := Stem(narrow);
      if HasStar(narrow) {
        var second := first + (if wide == first + "x" then "y" else "x");
        assert first <= second;
        assert Matches(narrow, second);
        if HasStar(wide) {
          var stem := Stem(wide);
          assert !(stem <= first);
          assert stem <= second ==> |stem| == |second| && stem == second;
          var third := first + (if stem == first + "x" then "y" else "x");
          assert first <= third;
          assert Matches(narrow, third);
          assert stem <= third ==> |stem| == |third| && stem == third;
          assert wide == third ==> stem == first;
          assert wide == "*" ==> stem == "";
        } else {
          assert !Matches(wide, second);
        }
      } else {
        assert Matches(narrow, narrow);
        assert wide == "*" ==> Stem(wide) == "";
      }
    }
  }

  /** The candidates a pattern list admits. */
  predicate Admits(list: Option<Value>, candidate: string) {
    MatchesPatterns(list, candidate) == Ok(true)
  }

  /** Whatever one list admits, the other admits. */
  ghost predicate NoWider(tight: Option<Value>, loose: Option<Value>) {
    && PatternList(loose, "pattern list").Ok?
    && forall candidate: string {:trigger Admits(tight, candidate)} :: Admits(tight, candidate) ==> Admits(loose, candidate)
  }

  // ---- What an allowed evaluation means ----

  /** A restriction that may be absent. */
  predicate OptionallyAdmits(list: Option<Value>, candidate: string) {
    list.None? || Admits(list, candidate)
  }

  predicate MoneyPermitted(constraints: Value, money: Value) {
    && MoneyCurrency(money).Some?
    && MoneyAmount(money).Some?
    && OptionallyAdmits(constraints.Get(ALLOWED_CURRENCIES), MoneyCurrency(money).value)
    && (constraints.Get(ALLOWED_BENEFICIARIES).Some? ==>
          && money.GetStr(BENEFICIARY).Some?
          && Admits(constraints.Get(ALLOWED_BENEFICIARIES), money.GetStr(BENEFICIARY).value))
    && (constraints.GetU64(MAX_MONEY_AMOUNT_MINOR).Some? ==>
          MoneyAmount(money).value <= constraints.GetU64(MAX_MONEY_AMOUNT_MINOR).value)
  }

  /** The policy permits the intent: each of its limits is respected. */
  predicate Permits(bundle: Value, intent: Value, ttlSeconds: u64) {
    && MemberObject(bundle, CONSTRAINTS).Some?
    && StringField(bundle, TENANT_ID).Some?
    && StringField(intent, TENANT_ID).Some?
    && StringField(intent, ACTION_TYPE).Some?
    && StringField(intent, RESOURCE).Some?
    && StringField(bundle, TENANT_ID).value in {"*", StringField(intent, TENANT_ID).value}
    && var constraints := MemberObject(bundle, CONSTRAINTS).value;
    && Admits(constraints.Get(ALLOWED_ACTION_TYPES), StringField(intent, ACTION_TYPE).value)
    && Admits(constraints.Get(ALLOWED_RESOURCES), StringField(intent, RESOURCE).value)
    && constraints.GetU64(MAX_TTL_SECONDS).Some?
    && ttlSeconds <= constraints.GetU64(MAX_TTL_SECONDS).value
    && constraints.GetU64(MAX_INPUT_BYTES).Some?
    && Utf8Length(Canonical.Text(IntentInput(intent))) <= constraints.GetU64(MAX_INPUT_BYTES).value
    && (IntentMoney(intent).Some? ==> MoneyPermitted(constraints, IntentMoney(intent).value))
  }

  predicate Allows(c: Crypto, bundle: Value, intent: Value, ttlSeconds: u64) {
    var r := EvaluatePolicy(c, bundle, intent, ttlSeconds);
    r.Ok? && r.value.allowed
  }

  lemma MoneyAllowedMeans(constraints: Value, money: Value)
    ensures MoneyAllowed(constraints, money) == Ok(true) <==> MoneyPermitted(constraints, money)
  {
    hide MatchesPatterns, MoneyAmount, MoneyCurrency;
  }

  /** An evaluation allows an intent exactly when the bundle is intact and permits it. */
  lemma AllowsMeans(c: Crypto, bundle: Value, intent: Value, ttlSeconds: u64)
    ensures Allows(c, bundle, intent, ttlSeconds)
      <==> BundleFault(c, bundle, None).None? && StringField(bundle, POLICY_DIGEST).Some? && Permits(bundle, intent, ttlSeconds)
  {
    hide BundleFault, MatchesPatterns, StringField, MemberObject, Utf8Length, Evidence, ExecutorConstraints, Canonical.Text, MoneyAllowed,
      MoneyPermitted, IntentInput, DenialReasons, Permits;
    if MemberObject(bundle, CONSTRAINTS).Some? {
      NoDenialMeans(bundle, MemberObject(bundle, CONSTRAINTS).value, intent, ttlSeconds);
    }
    if Permits(bundle, intent, ttlSeconds) { PermitsNeedsConstraints(bundle, intent, ttlSeconds); }
  }

  lemma PermitsNeedsConstraints(bundle: Value, intent: Value, ttlSeconds: u64)
    requires Permits(bundle, intent, ttlSeconds)
    ensures MemberObject(bundle, CONSTRAINTS).Some?
  {}

  /** There is no reason against an intent exactly when the policy permits it. */
  lemma NoDenialMeans(bundle: Value, constraints: Value, intent: Value, ttlSeconds: u64)
    requires MemberObject(bundle, CONSTRAINTS) == Some(constraints)
    ensures DenialReasons(bundle, constraints, intent, ttlSeconds) == Ok([]) <==> Permits(bundle, intent, ttlSeconds)
  {
    hide MatchesPatterns, StringField, MemberObject, Utf8Length, Canonical.Text, MoneyAllowed, MoneyPermitted, IntentInput, IntentMoney;
    if IntentMoney(intent).Some? {
      MoneyAllowedMeans(constraints, IntentMoney(intent).value);
    }
  }

  // ---- Tightening ----

  ghost predicate OptionalNoWider(tight: Option<Value>, loose: Option<Value>) {
    loose.Some? ==> tight.Some? && NoWider(tight, loose)
  }

  predicate OptionalNoGreater(tight: Option<u64>, loose: Option<u64>) {
    loose.Some? ==> tight.Some? && tight.value <= loose.value
  }

  /** Every limit of one bundle is at least as strict as the other's. */
  ghost predicate Tightens(tight: Value, loose: Value) {
    && MemberObject(tight, CONSTRAINTS).Some?
    && MemberObject(loose, CONSTRAINTS).Some?
    && StringField(tight, TENANT_ID).Some?
    && StringField(loose, TENANT_ID).Some?
    && StringField(loose, TENANT_ID).value in {"*", StringField(tight, TENANT_ID).value}
    && var t, l := MemberObject(tight, CONSTRAINTS).value, MemberObject(loose, CONSTRAINTS).value;
    && NoWider(t.Get(ALLOWED_ACTION_TYPES), l.Get(ALLOWED_ACTION_TYPES))
    && NoWider(t.Get(ALLOWED_RESOURCES), l.Get(ALLOWED_RESOURCES))
    && OptionalNoWider(t.Get(ALLOWED_CURRENCIES), l.Get(ALLOWED_CURRENCIES))
    && OptionalNoWider(t.Get(ALLOWED_BENEFICIARIES), l.Get(ALLOWED_BENEFICIARIES))
    && l.GetU64(MAX_TTL_SECONDS).Some? && OptionalNoGreater(t.GetU64(MAX_TTL_SECONDS), l.GetU64(MAX_TTL_SECONDS))
    && l.GetU64(MAX_INPUT_BYTES).Some? && OptionalNoGreater(t.GetU64(MAX_INPUT_BYTES), l.GetU64(MAX_INPUT_BYTES))
    && OptionalNoGreater(t.GetU64(MAX_MONEY_AMOUNT_MINOR), l.GetU64(MAX_MONEY_AMOUNT_MINOR))
  }

  lemma TighteningMoney(t: Value, l: Value, money: Value)
    requires OptionalNoWider(t.Get(ALLOWED_CURRENCIES), l.Get(ALLOWED_CURRENCIES))
    requires OptionalNoWider(t.Get(ALLOWED_BENEFICIARIES), l.Get(ALLOWED_BENEFICIARIES))
    requires OptionalNoGreater(t.GetU64(MAX_MONEY_AMOUNT_MINOR), l.GetU64(MAX_MONEY_AMOUNT_MINOR))
    requires MoneyPermitted(t, money)
    ensures MoneyPermitted(l, money)
  {
    hide MatchesPatterns, MoneyAmount, MoneyCurrency;
  }

  /** Tightening a bundle never turns a blocked evaluation into an allowed one. */
  lemma TighteningOnlyBlocks(c: Crypto, tight: Value, loose: Value, intent: Value, ttlSeconds: u64)
    requires Tightens(tight, loose)
    requires BundleFault(c, loose, None).None?
    requires Allows(c, tight, intent, ttlSeconds)
    ensures Allows(c, loose, intent, ttlSeconds)
  {
    hide Tightens, Permits, Allows;
    AllowsMeans(c, tight, intent, ttlSeconds);
    AllowsMeans(c, loose, intent, ttlSeconds);
    assert StringField(loose, POLICY_DIGEST).Some?;
    TighteningPermits(tight, loose, intent, ttlSeconds);
  }

  lemma TighteningPermits(tight: Value, loose: Value, intent: Value, ttlSeconds: u64)
    requires Tightens(tight, loose) && Permits(tight, intent, ttlSeconds)
    ensures Permits(loose, intent, ttlSeconds)
  {
    hide Admits, StringField, MemberObject, Utf8Length, Canonical.Text, MoneyPermitted, IntentInput, IntentMoney, PatternList;
    if IntentMoney(intent).Some? {
      TighteningMoney(MemberObject(tight, CONSTRAINTS).value, MemberObject(loose, CONSTRAINTS).value, IntentMoney(intent).value);
    }
  }
}
