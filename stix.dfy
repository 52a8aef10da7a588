/**
 * The records the diff reads: one STIX object of a snapshot, reduced to the
 * keys the classification, the layer builder and the link builder look at,
 * and the `revoked-by` relationships of the new data store.
 */
module Stix {
  import opened Wrappers

  type Id = string

  /** One entry of `external_references`; both keys may be absent. */
  datatype ExternalRef = ExternalRef(externalId: Option<string>, url: Option<string>)

  /**
   * A STIX object as a dictionary with optional keys. `version` is the
   * already-parsed `x_mitre_version` (None when it is absent or does not
   * parse), `modified` the already-parsed timestamp. The two flags stay
   * optional because the diff tells an absent key from a false one.
   * `revokedBy` is the `revoked_by` key the diff adds: it names the record
   * of the same snapshot that it refers to.
   */
  datatype Record = Record(
    id: Id,
    version: Option<real>,
    modified: Option<int>,
    revoked: Option<bool>,
    deprecated: Option<bool>,
    revokedBy: Option<Id>,
    externalRefs: seq<ExternalRef>,
    killChainPhases: Option<seq<string>>)

  /** A STIX relationship object of the new data store. */
  datatype Relationship = Relationship(relationshipType: string, sourceRef: Id, targetRef: Id)

  /** The `id_to_obj` dictionary of one snapshot. */
  type Snapshot = map<Id, Record>

  /** The dictionary is built by `{item['id']: item ...}`, so every key is its record's id. */
  predicate WellKeyed(m: Snapshot)
  {
    forall k | k in m :: m[k].id == k
  }

  datatype Domain = EnterpriseAttack | PreAttack | MobileAttack
  datatype ObjType = Technique | Software | Group | Mitigation

  /** The display name of each ATT&CK domain. */
  function DomainLabel(d: Domain): string
  {
    match d
    case EnterpriseAttack => "Enterprise"
    case PreAttack => "PRE-ATT&CK"
    case MobileAttack => "Mobile"
  }

  /** The `domain` field of a layer file for each ATT&CK domain. */
  function LayerFileDomain(d: Domain): string
  {
    match d
    case EnterpriseAttack => "mitre-enterprise"
    case MobileAttack => "mitre-mobile"
    case PreAttack => "pre-attack"
  }
}
