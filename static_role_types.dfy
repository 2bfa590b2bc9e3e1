/**
 The value types of the DatabaseSecretEngineStaticRole resource kind: the
 declared role fields (DBSESRole), the spec that embeds them, the status
 conditions, and the payload map sent to the remote secret service.
 */
module StaticRoleTypes {

  datatype Option<T> = None | Some(value: T)

  /** A metav1.Duration, kept opaque: only its wrapped count of nanoseconds matters. */
  datatype Duration = Duration(nanoseconds: int)

  /**
   The dynamic values a payload map can hold. Str, Dur and Strs are the three
   shapes toMap stores; Strs(None) is a nil string slice and Strs(Some([])) an
   empty one, which structural deep equality tells apart. Num stands for a
   plain number, a shape toMap never stores but an observed payload may carry.
   */
  datatype Value =
    | Str(s: string)
    | Dur(d: Duration)
    | Strs(list: Option<seq<string>>)
    | Num(n: int)

  /** A payload: field name (in the remote service's wire naming) to value. */
  type Payload = map<string, Value>

  const UsernameKey: string := "username"
  const RotationPeriodKey: string := "rotation_period"
  const DbNameKey: string := "db_name"
  const RotationStatementsKey: string := "rotation_statements"

  /** The four wire names a static-role payload carries. */
  const PayloadKeys: set<string> := {UsernameKey, RotationPeriodKey, DbNameKey, RotationStatementsKey}

  /** The declared properties of a static role. */
  datatype DBSESRole = DBSESRole(
    username: string,
    rotationPeriod: Duration,
    dbName: string,
    rotationStatements: Option<seq<string>>)
  {
    /** The payload for the remote service: exactly the four wire names, each bound to its field unchanged. */
    function ToMap(): (m: Payload)
      ensures m.Keys == PayloadKeys
      ensures m[UsernameKey] == Str(username)
      ensures m[RotationPeriodKey] == Dur(rotationPeriod)
      ensures m[DbNameKey] == Str(dbName)
      ensures m[RotationStatementsKey] == Strs(rotationStatements)
    {
      map[UsernameKey := Str(username),
          RotationPeriodKey := Dur(rotationPeriod),
          DbNameKey := Str(dbName),
          RotationStatementsKey := Strs(rotationStatements)]
    }
  }

  /** Reads a role back out of a payload: defined only on payloads with exactly the four keys, each of its own shape. */
  ghost function Decode(m: Payload): Option<DBSESRole>
  {
    if m.Keys == PayloadKeys && m[UsernameKey].Str? && m[RotationPeriodKey].Dur?
       && m[DbNameKey].Str? && m[RotationStatementsKey].Strs?
    then Some(DBSESRole(m[UsernameKey].s, m[RotationPeriodKey].d, m[DbNameKey].s, m[RotationStatementsKey].list))
    else None
  }

  /** Decoding a role's payload gives back the role. */
  lemma DecodeToMap(r: DBSESRole)
    ensures Decode(r.ToMap()) == Some(r)
  {
  }

  /** A payload that decodes to a role is exactly that role's payload. */
  lemma ToMapDecode(m: Payload, r: DBSESRole)
    requires Decode(m) == Some(r)
    ensures r.ToMap() == m
  {
  }

  /** Two roles have the same payload only when all four fields agree. */
  lemma ToMapInjective(r1: DBSESRole, r2: DBSESRole)
    ensures r1.ToMap() == r2.ToMap() <==> r1 == r2
  {
  }

  datatype ConditionStatus = True | False | Unknown

  /** A stand-in record for a metav1.Condition status entry; nothing here inspects its fields. */
  datatype Condition = Condition(
    conditionType: string,
    status: ConditionStatus,
    observedGeneration: int,
    lastTransitionTime: int,
    reason: string,
    message: string)

  /**
   A stand-in record for the auth configuration used to log in to the remote
   service; its real definition is not part of this model, and nothing here
   inspects its fields.
   */
  datatype KubeAuthConfiguration = KubeAuthConfiguration(
    serviceAccount: string,
    role: string,
    authPath: string)

  /** The desired state of a static role: auth configuration, mount path and the inline role fields. */
  datatype DatabaseSecretEngineStaticRoleSpec = DatabaseSecretEngineStaticRoleSpec(
    authentication: KubeAuthConfiguration,
    path: string,
    role: DBSESRole)

  /** The error a validity check may report. */
  datatype ValidationError = ValidationError(message: string)
}
