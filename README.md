# DatabaseSecretEngineStaticRole: the static-role resource's remote-object contract

This project models the `DatabaseSecretEngineStaticRole` custom resource of the
vault-config-operator. It covers the part of the resource that the operator's
generic reconciler relies on:

- the remote path `<spec.path>/static-roles/<metadata.name>` at which Vault holds
  the static role;
- the payload written to Vault: the four declared role fields (`username`,
  `rotation_period`, `db_name`, `rotation_statements`) under Vault's wire names;
- the equivalence check, which compares that payload with one read back from
  Vault by exact structural equality;
- the constant validity and initialisation answers, and the auth-configuration
  accessor;
- reading and replacing the status condition list.

`static_role_types.dfy` (module `StaticRoleTypes`) holds the value types: the
role fields `DBSESRole` with their `ToMap`, the spec, conditions, and the
payload map `map<string, Value>`. `Value` keeps the dynamic shapes apart:
a string, a duration, a string list that may be nil (`Strs(None)`) or empty
(`Strs(Some([]))`), and a plain number, which `toMap` never produces but a
payload read back may carry. `Decode`, a ghost inverse of `ToMap`, is the
reference that the equivalence check is proved against.

`static_role_resource.dfy` (module `StaticRoleResource`) holds the resource as
a class whose `conditions` field `SetConditions` overwrites in place; path,
payload and equivalence are functions reading the object.

What the code does, which a reader might expect otherwise:

- `GetPath` builds the string with no validation: an empty `spec.path` gives
  `/static-roles/<name>` (`GetPathEmptyMount`).
- The equivalence check is exact structural equality (`reflect.DeepEqual`) over
  the whole map, not a comparison of the declared fields only. An extra key, a
  missing key, a nil-versus-empty statement list or a differently typed value
  (a number for the rotation period) all make it false
  (`OtherKeysNotEquivalent`, `WrongShapeNotEquivalent`, `FieldSensitivity`).
- The path is injective only for names without `/` (`GetPathInjective`). The
  mount path may itself contain `static-roles` segments, so for instance mount
  `a/static-roles/b` with name `c` and mount `a` with name `b/static-roles/c` give
  the same path. Kubernetes object names cannot contain `/`.

## Model

| member | source | states |
|---|---|---|
| `StaticRoleTypes.DBSESRole.ToMap` | api/v1alpha1/databasesecretenginestaticrole_types.go:141-148 | the payload has exactly the keys username, rotation_period, db_name, rotation_statements, and each is bound to its field unchanged |
| `StaticRoleTypes.DecodeToMap` | api/v1alpha1/databasesecretenginestaticrole_types.go:141-148 | reading a role's payload back yields that role: nothing is lost in the payload |
| `StaticRoleTypes.ToMapDecode` | api/v1alpha1/databasesecretenginestaticrole_types.go:141-148 | any payload that reads back as a role is exactly that role's payload: the payload carries nothing else |
| `StaticRoleTypes.ToMapInjective` | api/v1alpha1/databasesecretenginestaticrole_types.go:141-148 | two roles have equal payloads if and only if all four fields agree, a nil and an empty statement list counting as different |
| `StaticRoleResource.DatabaseSecretEngineStaticRole.GetConditions` | api/v1alpha1/databasesecretenginestaticrole_types.go:72-74 | returns the current status condition list |
| `StaticRoleResource.DatabaseSecretEngineStaticRole.SetConditions` | api/v1alpha1/databasesecretenginestaticrole_types.go:76-78 | the condition list becomes the given one; name and spec are unchanged |
| `StaticRoleResource.SetThenGetConditions` | api/v1alpha1/databasesecretenginestaticrole_types.go:72-78 | setting the conditions and reading them back returns the list that was set, with name and spec unchanged |
| `StaticRoleResource.DatabaseSecretEngineStaticRole.GetPath` | api/v1alpha1/databasesecretenginestaticrole_types.go:80-82 | the path is the mount path, then `/static-roles/`, then the name, with no validation; it depends on nothing else |
| `StaticRoleResource.GetPathInjective` | api/v1alpha1/databasesecretenginestaticrole_types.go:80-82 | for names without `/`, two resources share a path if and only if they share mount path and name |
| `StaticRoleResource.GetPathEmptyMount` | api/v1alpha1/databasesecretenginestaticrole_types.go:80-82 | an empty mount path yields `/static-roles/<name>` rather than an error |
| `StaticRoleResource.DatabaseSecretEngineStaticRole.GetPayload` | api/v1alpha1/databasesecretenginestaticrole_types.go:83-85 | the payload has the four wire names as keys and reads back as the spec's inline role fields |
| `StaticRoleResource.PayloadIgnoresAuthAndPath` | api/v1alpha1/databasesecretenginestaticrole_types.go:30-44 | two resources have the same payload if and only if their role fields agree: authentication, mount path and name never reach it |
| `StaticRoleResource.DatabaseSecretEngineStaticRole.IsEquivalentToDesiredState` | api/v1alpha1/databasesecretenginestaticrole_types.go:86-88 | true if and only if the observed map has exactly the four keys, each of the right shape, holding exactly the spec's role fields |
| `StaticRoleResource.PayloadIsEquivalent` | api/v1alpha1/databasesecretenginestaticrole_types.go:83-88 | a resource's own payload is always equivalent to its desired state |
| `StaticRoleResource.FieldSensitivity` | api/v1alpha1/databasesecretenginestaticrole_types.go:86-88 | one resource's payload is equivalent to another's desired state if and only if their role fields all agree |
| `StaticRoleResource.OtherKeysNotEquivalent` | api/v1alpha1/databasesecretenginestaticrole_types.go:86-88 | an observed payload with an extra or a missing key is never equivalent |
| `StaticRoleResource.WrongShapeNotEquivalent` | api/v1alpha1/databasesecretenginestaticrole_types.go:86-88 | an observed rotation period that is not a duration value (a number, say) is never equivalent |
| `StaticRoleResource.DatabaseSecretEngineStaticRole.IsInitialized` | api/v1alpha1/databasesecretenginestaticrole_types.go:91-93 | always true |
| `StaticRoleResource.DatabaseSecretEngineStaticRole.IsValid` | api/v1alpha1/databasesecretenginestaticrole_types.go:99-102 | always valid, with no error |
| `StaticRoleResource.DatabaseSecretEngineStaticRole.GetKubeAuthConfiguration` | api/v1alpha1/databasesecretenginestaticrole_types.go:104-106 | returns the spec's authentication configuration |

## Left out

- `PrepareInternalValues` (lines 95-97): a no-op taking a context and a cluster client object, both I/O handles; there is nothing to state about it.
- `StaticRoleResource.DatabaseSecretEngineStaticRole.GetKubeAuthConfiguration`: returns the configuration as a value, not a pointer into the spec, so writes through that pointer are not modelled.
- `StaticRoleResource.DatabaseSecretEngineStaticRole.GetConditions`: returns the list as a value; the aliasing of the returned Go slice with the status field is not modelled.
- `StaticRoleResource.DatabaseSecretEngineStaticRole.GetPath`: the comment on the `Path` field (line 37) documents the final path as `{[spec.namespace]}/{spec.path}/static-roles/{metadata.name}`; the code at line 81 adds no namespace prefix and the spec has no namespace field, so the string modelled is the one the code builds, without that optional prefix.
- `StaticRoleResource.DatabaseSecretEngineStaticRole.SetConditions`: stores the list as a value; in Go the status keeps the caller's slice, so later writes through that slice would change the resource's status, and this aliasing is not modelled.
- `KubeAuthConfiguration`: its definition lives in `api/v1alpha1/utils`, which is not part of this model; it is a stand-in record whose fields nothing here reads.
- `metav1.Duration` is kept as a count of nanoseconds and `metav1.Condition` as a stand-in record whose fields nothing here reads; their parsing, formatting and internals are not modelled.
- `reflect.DeepEqual` is modelled only over the value shapes listed in `Value`, not over arbitrary dynamic values.
- The list type `DatabaseSecretEngineStaticRoleList`, the scheme registration in `init`, the kubebuilder markers and the JSON tags: schema and serialisation plumbing with no behaviour here.
- `TypeMeta` and the rest of `ObjectMeta` apart from the name: nothing in this resource reads them.
- The reconciler, the auth-token cache, condition upsert and worker concurrency: they are not part of this model.
