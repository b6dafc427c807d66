/** `acl/ingest_stub.py`: the fail-closed ACL and retention lookups. */
module AclLookups {
  import opened Wrappers
  import Uuids
  import opened Identity
  import opened JobStores

  datatype EffectiveAcl = EffectiveAcl(allowPrincipals: seq<string>, denyPrincipals: seq<string>, securityLabel: string)

  /** The primary key of `document_versions`. */
  datatype VersionKey = VersionKey(documentId: Uuids.Uuid, versionId: string)

  /** The two columns groups the ingest reads from one row. */
  datatype AclRow = AclRow(acl: EffectiveAcl, retentionState: string)

  function KeyOf(identity: DocumentIdentity): VersionKey {
    VersionKey(identity.documentId, identity.versionId)
  }

  /** The rows of `document_versions` as the session sees them. */
  class SqlAlchemyAclLookup {
    const table: map<VersionKey, AclRow>

    constructor (table: map<VersionKey, AclRow>)
      ensures this.table == table
    {
      this.table := table;
    }

    method Fetch(identity: DocumentIdentity) returns (r: Result<AclRow, PipelineError>)
      ensures r == if KeyOf(identity) in table then Success(table[KeyOf(identity)]) else Failure(AclLookupError)
    {
      r := if KeyOf(identity) in table then Success(table[KeyOf(identity)]) else Failure(AclLookupError);
    }

    method GetEffectiveAcl(identity: DocumentIdentity) returns (r: Result<EffectiveAcl, PipelineError>)
      ensures r == if KeyOf(identity) in table then Success(table[KeyOf(identity)].acl) else Failure(AclLookupError)
    {
      var version := Fetch(identity);
      match version {
        case Failure(error) => r := Failure(error);
        case Success(row) => r := Success(row.acl);
      }
    }

    method GetRetentionState(identity: DocumentIdentity) returns (r: Result<string, PipelineError>)
      ensures r == if KeyOf(identity) in table then Success(table[KeyOf(identity)].retentionState)
        else Failure(AclLookupError)
    {
      var version := Fetch(identity);
      match version {
        case Failure(error) => r := Failure(error);
        case Success(row) => r := Success(row.retentionState);
      }
    }
  }

  class FakeAclLookup {
    var acls: map<VersionKey, EffectiveAcl>
    var retention: map<VersionKey, string>

    /** The two dictionaries as one table, the way `document_versions` holds them. */
    ghost var table: map<VersionKey, AclRow>

    ghost predicate Valid()
      reads this
    {
      && acls.Keys == retention.Keys == table.Keys
      && forall key :: key in table ==> table[key] == AclRow(acls[key], retention[key])
    }

    constructor ()
      ensures Valid() && table == map[]
    {
      acls, retention, table := map[], map[], map[];
    }

    method Seed(identity: DocumentIdentity, acl: EffectiveAcl, retentionState: string)
      requires Valid()
      modifies this
      ensures Valid() && table == old(table)[KeyOf(identity) := AclRow(acl, retentionState)]
    {
      acls := acls[KeyOf(identity) := acl];
      retention := retention[KeyOf(identity) := retentionState];
      table := table[KeyOf(identity) := AclRow(acl, retentionState)];
    }

    method GetEffectiveAcl(identity: DocumentIdentity) returns (r: Result<EffectiveAcl, PipelineError>)
      requires Valid()
      ensures r == if KeyOf(identity) in table then Success(table[KeyOf(identity)].acl) else Failure(AclLookupError)
    {
      var key := KeyOf(identity);
      r := if key in acls then Success(acls[key]) else Failure(AclLookupError);
    }

    method GetRetentionState(identity: DocumentIdentity) returns (r: Result<string, PipelineError>)
      requires Valid()
      ensures r == if KeyOf(identity) in table then Success(table[KeyOf(identity)].retentionState)
        else Failure(AclLookupError)
    {
      var key := KeyOf(identity);
      r := if key in retention then Success(retention[key]) else Failure(AclLookupError);
    }
  }
}
