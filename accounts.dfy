/**
 * Role masks of the Evercity accounts pallet. A role mask is a u32 in which
 * each of thirteen bits stands for one role; an account may hold several.
 */
module Accounts {
  import opened Dispatch

  type RoleMask = bv32

  const MASTER_ROLE_MASK: RoleMask := 1

  const CUSTODIAN_ROLE_MASK: RoleMask := 2
  const ISSUER_ROLE_MASK: RoleMask := 4
  const INVESTOR_ROLE_MASK: RoleMask := 8
  const AUDITOR_ROLE_MASK: RoleMask := 16
  const MANAGER_ROLE_MASK: RoleMask := 32
  const IMPACT_REPORTER_ROLE_MASK: RoleMask := 64
  const BOND_ARRANGER_ROLE_MASK: RoleMask := 128

  // Carbon-credit roles
  const CC_PROJECT_OWNER_ROLE_MASK: RoleMask := 256
  const CC_AUDITOR_ROLE_MASK: RoleMask := 512
  const CC_STANDARD_ROLE_MASK: RoleMask := 1024
  const CC_INVESTOR_ROLE_MASK: RoleMask := 2048
  const CC_REGISTRY_ROLE_MASK: RoleMask := 4096

  const ALL_ROLES_MASK: RoleMask :=
    MASTER_ROLE_MASK
    | CUSTODIAN_ROLE_MASK
    | ISSUER_ROLE_MASK
    | INVESTOR_ROLE_MASK
    | AUDITOR_ROLE_MASK
    | MANAGER_ROLE_MASK
    | IMPACT_REPORTER_ROLE_MASK
    | BOND_ARRANGER_ROLE_MASK
    | CC_PROJECT_OWNER_ROLE_MASK
    | CC_AUDITOR_ROLE_MASK
    | CC_STANDARD_ROLE_MASK
    | CC_INVESTOR_ROLE_MASK
    | CC_REGISTRY_ROLE_MASK

  /** The thirteen role constants, in the order they are declared. */
  const ROLE_MASKS: seq<RoleMask> := [
    MASTER_ROLE_MASK, CUSTODIAN_ROLE_MASK, ISSUER_ROLE_MASK, INVESTOR_ROLE_MASK,
    AUDITOR_ROLE_MASK, MANAGER_ROLE_MASK, IMPACT_REPORTER_ROLE_MASK, BOND_ARRANGER_ROLE_MASK,
    CC_PROJECT_OWNER_ROLE_MASK, CC_AUDITOR_ROLE_MASK, CC_STANDARD_ROLE_MASK,
    CC_INVESTOR_ROLE_MASK, CC_REGISTRY_ROLE_MASK]

  /** A mask with exactly one bit set. */
  predicate IsSingleBit(m: RoleMask) {
    m != 0 && m & (m - 1) == 0
  }

  /** The role constants are thirteen distinct single bits and ALL_ROLES_MASK is 2^13 - 1. */
  lemma RoleMasksAreDistinctBits()
    ensures |ROLE_MASKS| == 13
    ensures forall i :: 0 <= i < |ROLE_MASKS| ==> IsSingleBit(ROLE_MASKS[i])
    ensures forall i, j :: 0 <= i < j < |ROLE_MASKS| ==> ROLE_MASKS[i] & ROLE_MASKS[j] == 0
    ensures ALL_ROLES_MASK == 0x1FFF
  {
  }

  /** ALL_ROLES_MASK is the union of the role constants and nothing more. */
  lemma AllRolesIsUnionOfRoles(m: RoleMask)
    ensures m & !ALL_ROLES_MASK == 0 <==> m <= ALL_ROLES_MASK
  {
  }

  /**
   * `is_roles_correct`: the mask is a non-empty combination of known roles,
   * that is, nonzero and with no bit outside ALL_ROLES_MASK.
   */
  function IsRolesCorrect(roles: RoleMask): (correct: bool)
    ensures correct <==> roles != 0 && roles & !ALL_ROLES_MASK == 0
  {
    roles <= ALL_ROLES_MASK && roles > 0
  }

  /**
   * `is_roles_mask_included`: the mask shares a bit with `constMask`
   * (the additional `roles > 0` test of the source is implied).
   */
  function IsRolesMaskIncluded(roles: RoleMask, constMask: RoleMask): (included: bool)
    ensures included <==> roles & constMask != 0
  {
    (roles & constMask) != 0 && roles > 0
  }

  /** The masks for which the master bit is, and is not, reported as included. */
  lemma MasterInclusionExamples()
    ensures IsRolesMaskIncluded(MASTER_ROLE_MASK, MASTER_ROLE_MASK)
    ensures IsRolesMaskIncluded(MASTER_ROLE_MASK | CUSTODIAN_ROLE_MASK, MASTER_ROLE_MASK)
    ensures IsRolesMaskIncluded(ALL_ROLES_MASK, MASTER_ROLE_MASK)
    ensures IsRolesMaskIncluded(MASTER_ROLE_MASK | CC_AUDITOR_ROLE_MASK, MASTER_ROLE_MASK)
    ensures !IsRolesMaskIncluded(AUDITOR_ROLE_MASK, MASTER_ROLE_MASK)
    ensures !IsRolesMaskIncluded(CUSTODIAN_ROLE_MASK | CC_AUDITOR_ROLE_MASK, MASTER_ROLE_MASK)
    ensures !IsRolesMaskIncluded(CC_INVESTOR_ROLE_MASK, MASTER_ROLE_MASK)
    ensures !IsRolesMaskIncluded(CC_PROJECT_OWNER_ROLE_MASK | CC_STANDARD_ROLE_MASK, MASTER_ROLE_MASK)
    ensures !IsRolesMaskIncluded(BOND_ARRANGER_ROLE_MASK, MASTER_ROLE_MASK)
  {
  }

  /** What the registry stores per account: roles, an external identity and the creation time. */
  datatype AccountStruct = AccountStruct(roles: RoleMask, identity: U64, createTime: Moment)

  /** The value a registry read yields for an account that was never stored. */
  const DEFAULT_ACCOUNT: AccountStruct := AccountStruct(0, 0, 0)

  /**
   * `AccountStruct::new`, which the dispatchables call to build a record;
   * it mirrors the source's constructor function rather than defining a
   * second record shape.
   */
  function NewAccountStruct(roles: RoleMask, identity: U64, createTime: Moment): (a: AccountStruct)
    ensures a.roles == roles && a.identity == identity && a.createTime == createTime
  {
    AccountStruct(roles, identity, createTime)
  }
}
