/** The records the policy state database holds for one resource. */
module PolicyRecords {

  datatype VersionRecord = VersionRecord(
    recordType: string,
    recordVersion: nat,
    resourceKey: string,
    generation: nat,
    policyId: string,
    canonicalHash: string,
    schemaVersion: nat,
    apiVersion: string,
    kind: string,
    yamlKey: string,
    sourceType: string,
    applyId: string,
    previousGeneration: nat,
    previousPolicyId: string,
    createdAt: nat)

  datatype ActivePointer = ActivePointer(
    recordType: string,
    recordVersion: nat,
    resourceKey: string,
    generation: nat,
    policyId: string,
    canonicalHash: string,
    schemaVersion: nat,
    apiVersion: string,
    kind: string,
    versionKey: string,
    yamlKey: string,
    sourceType: string,
    applyId: string,
    previousGeneration: nat,
    previousPolicyId: string,
    committedAt: nat)

  /** The audit fields the commit path reads or rewrites; the rest of the record is carried along. */
  datatype AuditRecord = AuditRecord(
    applyId: string,
    resourceKey: string,
    generation: nat,
    policyId: string,
    beforeGeneration: nat,
    afterGeneration: nat,
    targetGeneration: nat,
    operation: string)

  datatype ExpectedActive = ExpectedActive(generation: nat, policyId: string)

  /** What deserialization insists on before it returns a record. */
  predicate ReadableVersion(v: VersionRecord) {
    v.recordType != "" && v.generation != 0 && v.policyId != ""
  }

  predicate ReadablePointer(p: ActivePointer) {
    p.recordType != "" && p.generation != 0 && p.policyId != ""
  }
}
