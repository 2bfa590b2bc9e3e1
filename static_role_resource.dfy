/**
 The DatabaseSecretEngineStaticRole resource: its side of the remote-object
 contract (path, payload, equivalence check, validity, auth configuration)
 and of the conditions-aware contract (read and replace the condition list).
 */
module StaticRoleResource {
  import opened StaticRoleTypes

  /** The fixed segment between the mount path and the role name. */
  const StaticRolesSegment: string := "static-roles"

  /** The separator that sits between the mount path and the role name. */
  const Infix: string := "/" + StaticRolesSegment + "/"

  class DatabaseSecretEngineStaticRole {
    /** metadata.name */
    var name: string
    var spec: DatabaseSecretEngineStaticRoleSpec
    /** status.conditions */
    var conditions: seq<Condition>

    constructor (name: string, spec: DatabaseSecretEngineStaticRoleSpec)
      ensures this.name == name && this.spec == spec && conditions == []
    {
      this.name := name;
      this.spec := spec;
      conditions := [];
    }

    /** The current condition list. */
    method GetConditions() returns (cs: seq<Condition>)
      ensures cs == conditions
    {
      cs := conditions;
    }

    /** Replaces the condition list; name and spec are left as they were. */
    method SetConditions(cs: seq<Condition>)
      modifies this
      ensures conditions == cs
      ensures name == old(name) && spec == old(spec)
    {
      conditions := cs;
    }

    /**
     The remote address: the mount path, then "/static-roles/", then the name.
     No check is made: an empty mount path gives "/static-roles/<name>".
     */
    function GetPath(): (p: string)
      reads this
      ensures |p| == |spec.path| + |Infix| + |name|
      ensures p[..|spec.path|] == spec.path
      ensures p[|spec.path|..|spec.path| + |Infix|] == Infix
      ensures p[|spec.path| + |Infix|..] == name
    {
      spec.path + "/" + StaticRolesSegment + "/" + name
    }

    /** The desired payload: the four role fields under their wire names; auth and mount path are not sent. */
    function GetPayload(): (m: Payload)
      reads this
      ensures m.Keys == PayloadKeys
      ensures Decode(m) == Some(spec.role)
    {
      spec.role.ToMap()
    }

    /** Exact structural comparison of the desired payload with an observed one. */
    function IsEquivalentToDesiredState(payload: Payload): (b: bool)
      reads this
      ensures b <==> Decode(payload) == Some(spec.role)
    {
      spec.role.ToMap() == payload
    }

    /** This kind needs no initialisation step. */
    function IsInitialized(): (b: bool)
      ensures b
    {
      true
    }

    /** This kind accepts every spec: valid, with no error. */
    function IsValid(): (r: (bool, Option<ValidationError>))
      ensures r.0 && r.1 == None
    {
      (true, None)
    }

    /** The auth configuration the remote calls for this resource use. */
    function GetKubeAuthConfiguration(): (a: KubeAuthConfiguration)
      reads this
      ensures a == spec.authentication
    {
      spec.authentication
    }
  }

  /** Setting the conditions and reading them back gives the list that was set, with name and spec unchanged. */
  method SetThenGetConditions(d: DatabaseSecretEngineStaticRole, cs: seq<Condition>) returns (got: seq<Condition>)
    modifies d
    ensures got == cs
    ensures d.name == old(d.name) && d.spec == old(d.spec)
  {
    d.SetConditions(cs);
    got := d.GetConditions();
  }

  /** In a + Infix + n with no '/' in n, the last '/' is the one just before n. */
  lemma LastSlashBeforeName(a: string, n: string)
    requires '/' !in n
    ensures (a + Infix + n)[|a| + |Infix| - 1] == '/'
    ensures forall i :: |a| + |Infix| <= i < |a| + |Infix| + |n| ==> (a + Infix + n)[i] != '/'
  {
  }

  /**
   If x + Infix + n1 == y + Infix + n2 and neither name holds a '/', the parts
   agree: the name is whatever follows the last '/'.
   */
  lemma {:induction false} SplitAtInfix(x: string, n1: string, y: string, n2: string)
    requires '/' !in n1 && '/' !in n2
    requires x + Infix + n1 == y + Infix + n2
    ensures x == y && n1 == n2
  {
    var p := x + Infix + n1;
    var q := y + Infix + n2;
    LastSlashBeforeName(x, n1);
    LastSlashBeforeName(y, n2);
    assert |n1| == |n2|;
    assert n1 == p[|p| - |n1|..];
    assert n2 == q[|q| - |n2|..];
    assert x == p[..|x|];
    assert y == q[..|y|];
  }

  /** Resources whose names hold no '/' share a remote path exactly when they share mount path and name. */
  lemma GetPathInjective(d: DatabaseSecretEngineStaticRole, e: DatabaseSecretEngineStaticRole)
    requires '/' !in d.name && '/' !in e.name
    ensures d.GetPath() == e.GetPath() <==> d.spec.path == e.spec.path && d.name == e.name
  {
    if d.GetPath() == e.GetPath() {
      assert d.GetPath() == d.spec.path + Infix + d.name;
      assert e.GetPath() == e.spec.path + Infix + e.name;
      SplitAtInfix(d.spec.path, d.name, e.spec.path, e.name);
    }
  }

  /** An empty mount path is not rejected: the path is then "/static-roles/<name>". */
  lemma GetPathEmptyMount(d: DatabaseSecretEngineStaticRole)
    requires d.spec.path == ""
    ensures d.GetPath() == "/static-roles/" + d.name
  {
  }

  /** A resource's own payload is equivalent to its desired state. */
  lemma PayloadIsEquivalent(d: DatabaseSecretEngineStaticRole)
    ensures d.IsEquivalentToDesiredState(d.GetPayload())
  {
  }

  /** The payload depends on the role fields only: auth configuration, mount path and name never reach it. */
  lemma PayloadIgnoresAuthAndPath(d: DatabaseSecretEngineStaticRole, e: DatabaseSecretEngineStaticRole)
    ensures d.GetPayload() == e.GetPayload() <==> d.spec.role == e.spec.role
  {
  }

  /** Roles that differ in any one field are never equivalent to each other's payload (nil and empty statements included). */
  lemma FieldSensitivity(d: DatabaseSecretEngineStaticRole, e: DatabaseSecretEngineStaticRole)
    ensures d.IsEquivalentToDesiredState(e.GetPayload()) <==> d.spec.role == e.spec.role
  {
  }

  /** An observed payload with a key set other than the four wire names (an extra or a missing key) is not equivalent. */
  lemma OtherKeysNotEquivalent(d: DatabaseSecretEngineStaticRole, payload: Payload)
    requires payload.Keys != PayloadKeys
    ensures !d.IsEquivalentToDesiredState(payload)
  {
  }

  /** An observed value of another shape under a wire name (a number for the rotation period, say) is not equivalent. */
  lemma WrongShapeNotEquivalent(d: DatabaseSecretEngineStaticRole, payload: Payload)
    requires RotationPeriodKey in payload && !payload[RotationPeriodKey].Dur?
    ensures !d.IsEquivalentToDesiredState(payload)
  {
  }
}
