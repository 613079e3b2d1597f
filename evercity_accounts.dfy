/**
 * The Evercity accounts pallet: a registry from accounts to role masks, with a
 * one-shot fuse that lets the first caller of `set_master` become master when
 * genesis registered nobody.
 */
module EvercityAccounts {
  import opened Dispatch
  import opened Accounts

  /** The pallet's errors, plus the `BadOrigin` that `ensure_signed` raises. */
  datatype Error =
    | AccountNotAuditor
    | AccountNotOwner
    | AccountNotStandard
    | AccountNotRegistry
    | AccountNotInvestor
    | AccountToAddAlreadyExists
    | AccountRoleParamIncorrect
    | AccountNotExist
    | AccountRoleMasterIncluded
    | InvalidAction
    | AccountNotAuthorized
    | BadOrigin

  /** `roles |= role`: every bit of `role` becomes set, every other bit is kept. */
  function GrantRoles(roles: RoleMask, role: RoleMask): (r: RoleMask)
    ensures r & role == role
    ensures r & !role == roles & !role
  {
    roles | role
  }

  /** `roles ^= role`: every bit of `role` is flipped, every other bit is kept. */
  function ToggleRoles(roles: RoleMask, role: RoleMask): (r: RoleMask)
    ensures r & role == !roles & role
    ensures r & !role == roles & !role
  {
    roles ^ role
  }

  /** Clearing the bits of `role`, which is what withdrawing a role is meant to do. */
  function RevokeRoles(roles: RoleMask, role: RoleMask): (r: RoleMask)
    ensures r & role == 0
    ensures r & !role == roles & !role
  {
    roles & !role
  }

  // The two bit identities below are stated on the raw operators so that the
  // solver meets them without the functions' definitions in scope.

  lemma XorOfHeldBitsClearsThem(roles: RoleMask, role: RoleMask)
    requires roles & role == role
    ensures roles ^ role == roles & !role
  {
  }

  lemma XorOfUnheldBitsSetsThem(roles: RoleMask, role: RoleMask)
    requires roles & role == 0
    ensures roles ^ role == roles | role
  {
  }

  lemma XorWithoutMasterKeepsMaster(roles: RoleMask, role: RoleMask)
    requires role & MASTER_ROLE_MASK == 0
    ensures (roles ^ role) & MASTER_ROLE_MASK == roles & MASTER_ROLE_MASK
  {
  }

  lemma ClearWithoutMasterKeepsMaster(roles: RoleMask, role: RoleMask)
    requires role & MASTER_ROLE_MASK == 0
    ensures (roles & !role) & MASTER_ROLE_MASK == roles & MASTER_ROLE_MASK
  {
  }

  /** The empty mask shares no bit with any mask. */
  lemma ZeroHoldsNoBit(role: RoleMask)
    ensures (0 as RoleMask) & role == 0
  {
  }

  /** When every bit of `role` is held, toggling and clearing agree. */
  lemma ToggleOfHeldRolesRevokesThem(roles: RoleMask, role: RoleMask)
    requires roles & role == role
    ensures ToggleRoles(roles, role) == RevokeRoles(roles, role)
  {
    XorOfHeldBitsClearsThem(roles, role);
  }

  /** Toggling a role the account does not hold grants that role. */
  lemma ToggleOfUnheldRoleGrantsIt(roles: RoleMask, role: RoleMask)
    requires roles & role == 0
    ensures ToggleRoles(roles, role) == GrantRoles(roles, role)
  {
    XorOfUnheldBitsSetsThem(roles, role);
  }

  /**
   * The registry the genesis configuration builds: the entries are inserted in
   * order, so a later entry for the same account replaces an earlier one.
   */
  function GenesisRegistry(entries: seq<(AccountId, AccountStruct)>): (m: map<AccountId, AccountStruct>)
    ensures m.Keys == set i | 0 <= i < |entries| :: entries[i].0
    ensures forall a :: a in m ==> exists i :: 0 <= i < |entries| && entries[i] == (a, m[a])
    ensures |entries| > 0 ==> m[entries[|entries| - 1].0] == entries[|entries| - 1].1
  {
    if |entries| == 0 then map[]
    else
      var last := entries[|entries| - 1];
      var m := GenesisRegistry(entries[..|entries| - 1])[last.0 := last.1];
      assert forall i :: 0 <= i < |entries| - 1 ==> entries[..|entries| - 1][i] == entries[i];
      m
  }

  /** The genesis registry is empty exactly when genesis lists no account. */
  lemma GenesisRegistryEmptyIff(entries: seq<(AccountId, AccountStruct)>)
    ensures GenesisRegistry(entries) == map[] <==> |entries| == 0
  {
    if |entries| > 0 {
      assert entries[|entries| - 1].0 in GenesisRegistry(entries);
    }
  }

  class Registry {
    /** `AccountRegistry`: a value-query map; absent accounts read as DEFAULT_ACCOUNT. */
    var accounts: map<AccountId, AccountStruct>
    /** `Fuse`: once true, `set_master` is closed for good. */
    var fuse: bool

    /** While the fuse is unburnt nobody is registered, so nobody is master. */
    ghost predicate Valid()
      reads this
    {
      !fuse ==> accounts == map[]
    }

    /** Genesis: the registry from the configuration; the fuse is burnt iff it lists anyone. */
    constructor (genesis: seq<(AccountId, AccountStruct)>)
      ensures accounts == GenesisRegistry(genesis)
      ensures fuse <==> |genesis| > 0
      ensures Valid()
    {
      accounts := GenesisRegistry(genesis);
      fuse := |genesis| > 0;
      GenesisRegistryEmptyIff(genesis);
    }

    /** `AccountRegistry::get`. */
    function Get(acc: AccountId): (a: AccountStruct)
      reads this
      ensures acc in accounts ==> a == accounts[acc]
      ensures acc !in accounts ==> a == DEFAULT_ACCOUNT
    {
      if acc in accounts then accounts[acc] else DEFAULT_ACCOUNT
    }

    /** `account_is_selected_role`: the account is registered and holds some bit of `role`. */
    function AccountIsSelectedRole(acc: AccountId, role: RoleMask): (holds: bool)
      reads this
      ensures holds <==> acc in accounts && accounts[acc].roles & role != 0
    {
      // an absent account reads as DEFAULT_ACCOUNT, whose mask 0 holds no bit
      if acc in accounts then accounts[acc].roles & role != 0 else false
    }

    /** The registered-only form agrees with the source's read through the value-query default. */
    lemma SelectedRoleReadsDefault(acc: AccountId, role: RoleMask)
      ensures AccountIsSelectedRole(acc, role) == (Get(acc).roles & role != 0)
    {
      if acc !in accounts {
        var r := Get(acc).roles;
        assert r == 0;
        ZeroHoldsNoBit(role);
        assert r & role == 0;
      }
    }

    function AccountIsMaster(acc: AccountId): (holds: bool)
      reads this
      ensures holds <==> acc in accounts && accounts[acc].roles & MASTER_ROLE_MASK != 0
    {
      Get(acc).roles & MASTER_ROLE_MASK != 0
    }

    function AccountIsCustodian(acc: AccountId): (holds: bool)
      reads this
      ensures holds <==> acc in accounts && accounts[acc].roles & CUSTODIAN_ROLE_MASK != 0
    {
      Get(acc).roles & CUSTODIAN_ROLE_MASK != 0
    }

    function AccountIsIssuer(acc: AccountId): (holds: bool)
      reads this
      ensures holds <==> acc in accounts && accounts[acc].roles & ISSUER_ROLE_MASK != 0
    {
      Get(acc).roles & ISSUER_ROLE_MASK != 0
    }

    function AccountIsInvestor(acc: AccountId): (holds: bool)
      reads this
      ensures holds <==> acc in accounts && accounts[acc].roles & INVESTOR_ROLE_MASK != 0
    {
      Get(acc).roles & INVESTOR_ROLE_MASK != 0
    }

    function AccountIsAuditor(acc: AccountId): (holds: bool)
      reads this
      ensures holds <==> acc in accounts && accounts[acc].roles & AUDITOR_ROLE_MASK != 0
    {
      Get(acc).roles & AUDITOR_ROLE_MASK != 0
    }

    function AccountIsManager(acc: AccountId): (holds: bool)
      reads this
      ensures holds <==> acc in accounts && accounts[acc].roles & MANAGER_ROLE_MASK != 0
    {
      Get(acc).roles & MANAGER_ROLE_MASK != 0
    }

    function AccountIsImpactReporter(acc: AccountId): (holds: bool)
      reads this
      ensures holds <==> acc in accounts && accounts[acc].roles & IMPACT_REPORTER_ROLE_MASK != 0
    {
      Get(acc).roles & IMPACT_REPORTER_ROLE_MASK != 0
    }

    function AccountIsBondArranger(acc: AccountId): (holds: bool)
      reads this
      ensures holds <==> acc in accounts && accounts[acc].roles & BOND_ARRANGER_ROLE_MASK != 0
    {
      Get(acc).roles & BOND_ARRANGER_ROLE_MASK != 0
    }

    /** Minting and burning is open to investors and issuers. */
    function AccountTokenMintBurnAllowed(acc: AccountId): (allowed: bool)
      reads this
      ensures allowed <==> AccountIsInvestor(acc) || AccountIsIssuer(acc)
    {
      Get(acc).roles & (INVESTOR_ROLE_MASK | ISSUER_ROLE_MASK) != 0
    }

    function AccountIsCcProjectOwner(acc: AccountId): (holds: bool)
      reads this
      ensures holds <==> acc in accounts && accounts[acc].roles & CC_PROJECT_OWNER_ROLE_MASK != 0
    {
      Get(acc).roles & CC_PROJECT_OWNER_ROLE_MASK != 0
    }

    function AccountIsCcAuditor(acc: AccountId): (holds: bool)
      reads this
      ensures holds <==> acc in accounts && accounts[acc].roles & CC_AUDITOR_ROLE_MASK != 0
    {
      Get(acc).roles & CC_AUDITOR_ROLE_MASK != 0
    }

    function AccountIsCcStandard(acc: AccountId): (holds: bool)
      reads this
      ensures holds <==> acc in accounts && accounts[acc].roles & CC_STANDARD_ROLE_MASK != 0
    {
      Get(acc).roles & CC_STANDARD_ROLE_MASK != 0
    }

    function AccountIsCcInvestor(acc: AccountId): (holds: bool)
      reads this
      ensures holds <==> acc in accounts && accounts[acc].roles & CC_INVESTOR_ROLE_MASK != 0
    {
      Get(acc).roles & CC_INVESTOR_ROLE_MASK != 0
    }

    function AccountIsCcRegistry(acc: AccountId): (holds: bool)
      reads this
      ensures holds <==> acc in accounts && accounts[acc].roles & CC_REGISTRY_ROLE_MASK != 0
    {
      Get(acc).roles & CC_REGISTRY_ROLE_MASK != 0
    }

    /** An account nobody registered holds no role at all. */
    lemma UnregisteredHoldsNoRole(acc: AccountId, role: RoleMask)
      requires acc !in accounts
      ensures !AccountIsSelectedRole(acc, role)
      ensures !AccountIsMaster(acc) && !AccountIsCustodian(acc) && !AccountIsIssuer(acc)
      ensures !AccountIsInvestor(acc) && !AccountIsAuditor(acc) && !AccountIsManager(acc)
      ensures !AccountIsImpactReporter(acc) && !AccountIsBondArranger(acc)
      ensures !AccountTokenMintBurnAllowed(acc)
      ensures !AccountIsCcProjectOwner(acc) && !AccountIsCcAuditor(acc) && !AccountIsCcStandard(acc)
      ensures !AccountIsCcInvestor(acc) && !AccountIsCcRegistry(acc)
    {
    }

    /** While the fuse is unburnt there is no master, so every master-only call fails. */
    lemma NoMasterBeforeFuse(acc: AccountId)
      requires Valid() && !fuse
      ensures !AccountIsMaster(acc)
    {
    }

    /** The guard chain of `account_add_with_role_and_data`. */
    function AddGuard(origin: Origin, who: AccountId, role: RoleMask): (failure: Option<Error>)
      reads this
      ensures origin.Root? ==> failure == Some(BadOrigin)
      ensures origin.Signed? && !AccountIsMaster(origin.who) ==> failure == Some(AccountNotAuthorized)
      ensures origin.Signed? && AccountIsMaster(origin.who) ==>
        failure == (if who in accounts then Some(AccountToAddAlreadyExists)
                    else if !IsRolesCorrect(role) then Some(AccountRoleParamIncorrect)
                    else if IsRolesMaskIncluded(role, MASTER_ROLE_MASK) then Some(AccountRoleMasterIncluded)
                    else None)
    {
      if origin.Root? then Some(BadOrigin)
      else if !AccountIsMaster(origin.who) then Some(AccountNotAuthorized)
      else if who in accounts then Some(AccountToAddAlreadyExists)
      else if !IsRolesCorrect(role) then Some(AccountRoleParamIncorrect)
      else if IsRolesMaskIncluded(role, MASTER_ROLE_MASK) then Some(AccountRoleMasterIncluded)
      else None
    }

    /** The guard chain shared by `account_set_with_role_and_data` and `account_withdraw_role`. */
    function RoleChangeGuard(origin: Origin, who: AccountId, role: RoleMask): (failure: Option<Error>)
      reads this
      ensures origin.Root? ==> failure == Some(BadOrigin)
      ensures origin.Signed? && origin.who == who ==> failure == Some(InvalidAction)
      ensures origin.Signed? && origin.who != who && !AccountIsMaster(origin.who) ==>
        failure == Some(AccountNotAuthorized)
      ensures origin.Signed? && origin.who != who && AccountIsMaster(origin.who) ==>
        failure == (if who !in accounts then Some(AccountNotExist)
                    else if !IsRolesCorrect(role) then Some(AccountRoleParamIncorrect)
                    else if IsRolesMaskIncluded(role, MASTER_ROLE_MASK) then Some(AccountRoleMasterIncluded)
                    else None)
    {
      if origin.Root? then Some(BadOrigin)
      else if origin.who == who then Some(InvalidAction)
      else if !AccountIsMaster(origin.who) then Some(AccountNotAuthorized)
      else if who !in accounts then Some(AccountNotExist)
      else if !IsRolesCorrect(role) then Some(AccountRoleParamIncorrect)
      else if IsRolesMaskIncluded(role, MASTER_ROLE_MASK) then Some(AccountRoleMasterIncluded)
      else None
    }

    /** The guard chain of `add_master_role`. */
    function AddMasterGuard(origin: Origin, who: AccountId): (failure: Option<Error>)
      reads this
      ensures origin.Root? ==> failure == Some(BadOrigin)
      ensures origin.Signed? && origin.who == who ==> failure == Some(InvalidAction)
      ensures origin.Signed? && origin.who != who ==>
        failure == (if !AccountIsMaster(origin.who) then Some(AccountNotAuthorized)
                    else if AccountIsMaster(who) then Some(InvalidAction)
                    else None)
    {
      if origin.Root? then Some(BadOrigin)
      else if origin.who == who then Some(InvalidAction)
      else if !AccountIsMaster(origin.who) then Some(AccountNotAuthorized)
      else if AccountIsMaster(who) then Some(InvalidAction)
      else None
    }

    /** The guard chain of `account_disable`: here authorization is checked before self-targeting. */
    function DisableGuard(origin: Origin, who: AccountId): (failure: Option<Error>)
      reads this
      ensures origin.Root? ==> failure == Some(BadOrigin)
      ensures origin.Signed? && !AccountIsMaster(origin.who) ==> failure == Some(AccountNotAuthorized)
      ensures origin.Signed? && AccountIsMaster(origin.who) ==>
        failure == (if origin.who == who then Some(InvalidAction)
                    else if who !in accounts then Some(AccountNotExist)
                    else None)
    {
      if origin.Root? then Some(BadOrigin)
      else if !AccountIsMaster(origin.who) then Some(AccountNotAuthorized)
      else if origin.who == who then Some(InvalidAction)
      else if who !in accounts then Some(AccountNotExist)
      else None
    }

    /**
     * `set_master`: while the fuse is unburnt, the caller becomes the only
     * registered account, as master with identity 0, and the fuse burns.
     */
    method SetMaster(origin: Origin, now: Moment) returns (r: DispatchResult<Error>)
      requires Valid()
      modifies this
      ensures Valid()
      ensures origin.Root? ==> r == Err(BadOrigin)
      ensures origin.Signed? && old(fuse) ==> r == Err(InvalidAction)
      ensures origin.Signed? && !old(fuse) ==>
        r == Ok && fuse && accounts == map[origin.who := NewAccountStruct(MASTER_ROLE_MASK, 0, now)]
      ensures r.Err? ==> accounts == old(accounts) && fuse == old(fuse)
    {
      if origin.Root? {
        return Err(BadOrigin);
      }
      if fuse {
        return Err(InvalidAction);
      }
      accounts := accounts[origin.who := NewAccountStruct(MASTER_ROLE_MASK, 0, now)];
      fuse := true;
      return Ok;
    }

    /** `account_add_with_role_and_data`: a master registers a new account with non-master roles. */
    method AccountAddWithRoleAndData(origin: Origin, who: AccountId, role: RoleMask, identity: U64, now: Moment)
      returns (r: DispatchResult<Error>)
      requires Valid()
      modifies this
      ensures Valid() && fuse == old(fuse)
      ensures r == OkUnless(old(AddGuard(origin, who, role)))
      ensures r.Ok? ==> accounts == old(accounts)[who := NewAccountStruct(role, identity, now)]
      ensures r.Err? ==> accounts == old(accounts)
      ensures forall a :: AccountIsMaster(a) <==> old(AccountIsMaster(a))
    {
      var failure := AddGuard(origin, who, role);
      if failure.Some? {
        return Err(failure.value);
      }
      accounts := accounts[who := NewAccountStruct(role, identity, now)];
      return Ok;
    }

    /** `account_set_with_role_and_data`: a master grants more non-master roles to another account. */
    method AccountSetWithRoleAndData(origin: Origin, who: AccountId, role: RoleMask)
      returns (r: DispatchResult<Error>)
      requires Valid()
      modifies this
      ensures Valid() && fuse == old(fuse)
      ensures r == OkUnless(old(RoleChangeGuard(origin, who, role)))
      ensures r.Ok? ==>
        who in old(accounts) &&
        accounts == old(accounts)[who := old(accounts)[who].(roles := GrantRoles(old(accounts)[who].roles, role))]
      ensures r.Ok? ==> accounts[who].roles & old(accounts)[who].roles == old(accounts)[who].roles
      ensures r.Err? ==> accounts == old(accounts)
      ensures forall a :: AccountIsMaster(a) <==> old(AccountIsMaster(a))
    {
      var failure := RoleChangeGuard(origin, who, role);
      if failure.Some? {
        return Err(failure.value);
      }
      var acc := accounts[who];
      accounts := accounts[who := acc.(roles := GrantRoles(acc.roles, role))];
      return Ok;
    }

    /**
     * `add_master_role`: a master makes another account master as well. An
     * unregistered target is first given the default entry.
     */
    method AddMasterRole(origin: Origin, who: AccountId) returns (r: DispatchResult<Error>)
      requires Valid()
      modifies this
      ensures Valid() && fuse == old(fuse)
      ensures r == OkUnless(old(AddMasterGuard(origin, who)))
      ensures r.Ok? ==>
        accounts == old(accounts)[who := old(Get(who)).(roles := GrantRoles(old(Get(who)).roles, MASTER_ROLE_MASK))]
      ensures r.Ok? ==> forall a :: AccountIsMaster(a) <==> old(AccountIsMaster(a)) || a == who
      ensures r.Err? ==> accounts == old(accounts)
    {
      var failure := AddMasterGuard(origin, who);
      if failure.Some? {
        return Err(failure.value);
      }
      var acc := Get(who);
      accounts := accounts[who := acc.(roles := GrantRoles(acc.roles, MASTER_ROLE_MASK))];
      return Ok;
    }

    /**
     * `account_withdraw_role`: the target's mask is XORed with `role`, which
     * clears the bits of `role` it holds and sets those it does not.
     */
    method AccountWithdrawRole(origin: Origin, who: AccountId, role: RoleMask)
      returns (r: DispatchResult<Error>)
      requires Valid()
      modifies this
      ensures Valid() && fuse == old(fuse)
      ensures r == OkUnless(old(RoleChangeGuard(origin, who, role)))
      ensures r.Ok? ==>
        who in old(accounts) &&
        accounts == old(accounts)[who := old(accounts)[who].(roles := ToggleRoles(old(accounts)[who].roles, role))]
      ensures r.Err? ==> accounts == old(accounts)
      ensures forall a :: AccountIsMaster(a) <==> old(AccountIsMaster(a))
    {
      var failure := RoleChangeGuard(origin, who, role);
      if failure.Some? {
        return Err(failure.value);
      }
      var acc := accounts[who];
      XorWithoutMasterKeepsMaster(acc.roles, role);
      accounts := accounts[who := acc.(roles := ToggleRoles(acc.roles, role))];
      return Ok;
    }

    /**
     * The intended withdrawal: the same guards, but the bits of `role` are
     * cleared whether or not the target held them.
     */
    method AccountRevokeRole(origin: Origin, who: AccountId, role: RoleMask)
      returns (r: DispatchResult<Error>)
      requires Valid()
      modifies this
      ensures Valid() && fuse == old(fuse)
      ensures r == OkUnless(old(RoleChangeGuard(origin, who, role)))
      ensures r.Ok? ==>
        who in old(accounts) &&
        accounts == old(accounts)[who := old(accounts)[who].(roles := RevokeRoles(old(accounts)[who].roles, role))]
      ensures r.Ok? ==> !AccountIsSelectedRole(who, role)
      ensures r.Err? ==> accounts == old(accounts)
      ensures forall a :: AccountIsMaster(a) <==> old(AccountIsMaster(a))
    {
      var failure := RoleChangeGuard(origin, who, role);
      if failure.Some? {
        return Err(failure.value);
      }
      var acc := accounts[who];
      ClearWithoutMasterKeepsMaster(acc.roles, role);
      accounts := accounts[who := acc.(roles := RevokeRoles(acc.roles, role))];
      return Ok;
    }

    /** `account_disable`: a master clears every role of another account, keeping its data. */
    method AccountDisable(origin: Origin, who: AccountId) returns (r: DispatchResult<Error>)
      requires Valid()
      modifies this
      ensures Valid() && fuse == old(fuse)
      ensures r == OkUnless(old(DisableGuard(origin, who)))
      ensures r.Ok? ==> who in old(accounts) && accounts == old(accounts)[who := old(accounts)[who].(roles := 0)]
      ensures r.Ok? ==> forall role :: !AccountIsSelectedRole(who, role)
      ensures r.Ok? ==> forall a :: AccountIsMaster(a) <==> old(AccountIsMaster(a)) && a != who
      ensures r.Err? ==> accounts == old(accounts)
    {
      var failure := DisableGuard(origin, who);
      if failure.Some? {
        return Err(failure.value);
      }
      accounts := accounts[who := accounts[who].(roles := 0)];
      return Ok;
    }
  }
}
