/** The words of the documents, each written once. */
module Names {
  // ---- Members ----

  const ACTION_ID := "action_id"
  const ACTION_TYPE := "action_type"
  const AGENT_ID := "agent_id"
  const AGENT_SIGNATURE := "agent_signature"
  const ALGORITHM := "algorithm"
  const ALLOWED_ACTION_TYPES := "allowed_action_types"
  const ALLOWED_BENEFICIARIES := "allowed_beneficiaries"
  const ALLOWED_CURRENCIES := "allowed_currencies"
  const ALLOWED_EXECUTORS := "allowed_executors"
  const ALLOWED_RESOURCES := "allowed_resources"
  const AUTHORIZATION := "authorization"
  const AUTHORIZATION_ID := "authorization_id"
  const AUTHORIZED_BY := "authorized_by"
  const BENEFICIARY := "beneficiary"
  const CAN_DELEGATE := "can_delegate"
  const COMPLETED_AT := "completed_at"
  const CONSTRAINTS := "constraints"
  const CREATED_AT := "created_at"
  const DECISION := "decision"
  const EFFECTIVE_AT := "effective_at"
  const EVENT := "event"
  const EVENT_DIGEST := "event_digest"
  const EVENT_ID := "event_id"
  const EVENT_TYPE := "event_type"
  const EVIDENCE_DIGEST := "evidence_digest"
  const EXECUTION := "execution"
  const EXECUTOR_CONSTRAINTS := "executor_constraints"
  const EXECUTOR_ID := "executor_id"
  const EXECUTOR_SIGNATURE := "executor_signature"
  const EXPIRES_AT := "expires_at"
  const FIRST_SEQUENCE := "first_sequence"
  const GATE_ID := "gate_id"
  const GATE_SIGNATURE := "gate_signature"
  const GATE_SIGNER := "gate_signer"
  const IDENTITY_ID := "identity_id"
  const INTENT := "intent"
  const INTENT_HASH := "intent_hash"
  const ISSUED_AT := "issued_at"
  const KEY_VERSION := "key_version"
  const LAST_SEQUENCE := "last_sequence"
  const MAX_INPUT_BYTES := "max_input_bytes"
  const MAX_MONEY_AMOUNT_MINOR := "max_money_amount_minor"
  const MAX_TTL_SECONDS := "max_ttl_seconds"
  const METADATA := "metadata"
  const MONEY := "money"
  const OUTCOME := "outcome"
  const OUTCOME_HASH := "outcome_hash"
  const POLICY_BUNDLE := "policy_bundle"
  const POLICY_DIGEST := "policy_digest"
  const POLICY_VERSION := "policy_version"
  const PREV_EVENT_HASH := "prev_event_hash"
  const PREVIOUS_PUBLIC_KEY := "previous_public_key"
  const PUBLIC_KEY := "public_key"
  const REASON_CODES := "reason_codes"
  const RECEIPT := "receipt"
  const RECEIPT_ID := "receipt_id"
  const REGISTERED_AT := "registered_at"
  const REGISTERED_BY := "registered_by"
  const RESOURCE := "resource"
  const RETIRED_AT := "retired_at"
  const ROTATION_EVENT_ID := "rotation_event_id"
  const SCHEMA_VERSION := "schema_version"
  const SEQUENCE_NUMBER := "sequence_number"
  const SIGNATURE := "signature"
  const SIGNER := "signer"
  const SIGNER_URI := "signer_uri"
  const STATUS := "status"
  const STREAM_ROOT_HASH := "stream_root_hash"
  const TENANT_ID := "tenant_id"

  // ---- Decisions, reasons and kinds ----

  const ALLOWED := "ALLOWED"
  const BLOCKED := "BLOCKED"
  const REVOKE := "REVOKE"
  const ROTATE := "ROTATE"
  const INVALID_AGENT_SIGNATURE := "INVALID_AGENT_SIGNATURE"
  const AGENT_NOT_REGISTERED := "AGENT_NOT_REGISTERED"
  const AGENT_TENANT_SCOPE_DENIED := "AGENT_TENANT_SCOPE_DENIED"
  const REQUEST_STALE := "REQUEST_STALE"
  const REQUEST_FROM_FUTURE := "REQUEST_FROM_FUTURE"
  const POLICY_ALLOWED := "POLICY_ALLOWED"

  // ---- Events published ----

  const ACTION_AUTHORIZED := "action.authorized"
  const ACTION_EXECUTED := "action.executed"
  const ACTION_FAILED := "action.failed"
  const AGENT_REGISTERED := "agent.registered"
  const POLICY_PUBLISHED := "policy.published"
}
