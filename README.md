# carbon-assets in Dafny

A Dafny model of the carbon-assets Substrate runtime. It covers two pallets.

**The carbon-assets pallet** (`src/lib.rs`, and its fungible-token interface in `src/impl_fungibles.rs`) is a multi-asset ledger of carbon credits:
- any signed account can create an asset;
- the custodian mints it, to the asset's owner;
- holders and the admin burn it, and every burn is recorded in a per-holder, per-asset burn certificate;
- freezers and admins freeze and thaw holdings and whole assets;
- each asset carries bounded metadata (name, symbol, decimals, project url and IPFS link).

**The evercity-accounts pallet** (`pallets/evercity-accounts`) is a registry of accounts with bit-mask roles. It is governed by master accounts, and a fuse lets the first master be set once.

## Files

- `dispatch.dfy`, module `Dispatch`:
  - the caller (`Origin`: the root origin or a signed account);
  - dispatch results;
  - `u64` bounds and saturating arithmetic.
- `sums.dfy`, module `Sums`: sums of the values of a finite map, with update and removal lemmas.
- `asset_storage.dfy` holds two modules:
  - `AssetStorage`: the storage records (`AssetDetails`, `AssetAccount`, `Approval`, `AssetMetadata`), the pallet errors, and the lemmas relating holdings to supplies;
  - `Ledger`: the storage as one `State` value, the two invariants, and the pure transitions used by the pallet's balance and approval helpers. The invariants are `WellFormed` (every holding and metadata record belongs to an existing asset) and `Conserved` (every supply is the sum of its holdings).
- `carbon_assets.dfy`, module `CarbonAssets`:
  - class `Pallet`, with one field per storage item and one method per dispatchable. Each method is proved against the `Ledger` transitions.
  - the genesis specification, and the genesis build as three loops.
- `fungibles.dfy`, module `Fungibles`: the fungible-token interface, as functions and methods over a `Pallet`.
- `accounts.dfy`, module `Accounts`: the role bit masks as `bv32`, their validity checks and the account record.
- `evercity_accounts.dfy`, module `EvercityAccounts`: class `Registry`, with the account map and the fuse. It has the role predicates and the six dispatchables.

## Modelling choices

- Balances are `u64`, as in the runtime configuration of `src/mock.rs:133`. Account and asset ids are natural numbers.
- `ForceOrigin` is the root origin (`src/mock.rs:136`).
- The string limit and the deposits are fields of the pallet. The mock sets `StringLimit` to 50 and each deposit to 1 (`src/mock.rs:137-142`).
- `Asset`, `Account`, `Approvals` and `BurnCertificate` are maps. A key that is absent is a missing record.
- `Metadata` is read with its default record, as a `ValueQuery` storage item is: empty strings, no deposit, 0 decimals, not frozen.
- Dispatchables are transactional. When `create`'s metadata write fails, the asset it has just inserted is rolled back too.
- The `functions.rs` helpers are not part of this model. Their behaviour is reconstructed from the test suite and the dispatchables' doc comments, and where those leave it open, from the upstream pallet-assets helpers they are derived from (see "## Left out" for the choices this involves):
  - `increase_balance` / `do_mint`;
  - `decrease_balance` / `do_burn`;
  - `do_transfer`;
  - `do_approve_transfer` and `do_transfer_approved`;
  - `do_set_metadata` and `update_metadata`;
  - `do_force_create`.

  Each is a method with a guard function that returns the first failing check (`CreditFailure`, `DebitFailure`, `TransferFailure`, …) and a `Ledger` transition for its effect.
- Dust: a debit that would leave a holding below the minimum balance takes the whole holding (`DebitActual`).
- Burn certificates: `burn` and `self_burn` add the requested `amount` to the certificate (`src/lib.rs:792-799`, `849-856`). The supply, however, drops by the amount actually debited. The model keeps this difference: it is what the code does.
- The certificate is also written when `amount` is 0. Without an earlier certificate, this records 0.
- The outcomes of calls into code outside the pallets are parameters:
  - `get_new_asset_id`: `newId`;
  - the currency reserve and repatriation: `reserveOk`, `metadataReserveOk`, `repatriateOk`;
  - the timestamp: `now`.
- A genesis build that panics is modelled as `ok == false`.

## Model

| member | source | states |
|---|---|---|
| CarbonAssets.Pallet.SetCustodian | src/lib.rs:579-584 | only the force origin may set the custodian; on success only the custodian changes, otherwise nothing does |
| CarbonAssets.Pallet.Create | src/lib.rs:604-637 | the result is the first failure among a signed caller, a custodian being set, id allocation, the deposit reserve and the metadata write for the caller. On success the new asset is owned by the caller, governed by the custodian, has minimum balance 1, and carries metadata with 9 decimals. On any failure storage is unchanged, including a metadata failure after the insert. Supplies stay the sums of holdings when the id is fresh |
| CarbonAssets.Pallet.SetProjectData | src/lib.rs:650-658 | a signed caller who is the owner or the custodian sets url and IPFS link. This needs metadata, bounded strings and no supply yet. Only that metadata record changes |
| CarbonAssets.Pallet.ForceCreate | src/lib.rs:680-690 | the force origin inserts an asset under an unused id with a positive minimum balance; only that asset entry changes |
| CarbonAssets.Pallet.Mint | src/lib.rs:745-755 | mints always to the asset's owner, and only when the caller is the issuer. The result is exactly the credit guard's verdict. On success the state is `Credited` by `amount`; both invariants are kept |
| CarbonAssets.Pallet.Burn | src/lib.rs:777-806 | the admin burns from `who`: the result is the debit guard's verdict. On success the holding and supply drop by the dust-adjusted actual amount, and the certificate of (who, asset) grows by the requested amount |
| CarbonAssets.Pallet.SelfBurn | src/lib.rs:827-863 | as `burn`, for the caller's own holding and without the admin check |
| CarbonAssets.Pallet.Transfer | src/lib.rs:884-899 | the result is the transfer guard's verdict. On success the dust-adjusted amount moves from the caller to `dest`; a transfer to oneself or of 0 changes nothing; supplies stay the sums of holdings |
| CarbonAssets.Pallet.ForceTransfer | src/lib.rs:957-974 | as `transfer`, between any two accounts, and only by the asset's admin |
| CarbonAssets.Pallet.Freeze | src/lib.rs:987-1008 | the freezer sets the frozen flag of an existing holding; error order Unknown, NoPermission, NoAccount; only that holding's flag changes |
| CarbonAssets.Pallet.Thaw | src/lib.rs:1021-1042 | the admin clears the frozen flag of an existing holding; same error order; only that flag changes |
| CarbonAssets.Pallet.FreezeAsset | src/lib.rs:1054-1066 | the freezer sets the asset's frozen flag; only that flag changes |
| CarbonAssets.Pallet.ThawAsset | src/lib.rs:1078-1090 | the admin clears the asset's frozen flag; only that flag changes |
| CarbonAssets.Pallet.TransferOwnership | src/lib.rs:1103-1132 | only the owner may hand the asset over. Handing it to oneself succeeds and changes nothing. Otherwise the deposit repatriation must succeed, and then only the owner field changes |
| CarbonAssets.Pallet.ForceSetMetadata | src/lib.rs:1149-1207 | the force origin writes all metadata fields of an existing asset and keeps the held deposit, which is 0 without metadata. Error order: BadOrigin, BadMetadata for the four bounded strings, Unknown |
| CarbonAssets.Pallet.ForceClearMetadata | src/lib.rs:1221-1231 | the force origin removes the metadata of an existing asset that has metadata; otherwise Unknown and nothing changes |
| CarbonAssets.Pallet.ForceAssetStatus | src/lib.rs:1256-1283 | the force origin rewrites roles, minimum balance and flags of an existing asset, and keeps its supply, deposit and counters |
| CarbonAssets.Pallet.ApproveTransfer | src/lib.rs:1306-1315 | a signed owner's approval of an existing asset is additive and saturating. The stored deposit is the larger of the old one and the approval deposit. A new approval increments the asset's approval counter |
| CarbonAssets.Pallet.CancelApproval | src/lib.rs:1331-1352 | the approval (asset, caller, delegate) is removed and the approval counter decremented (saturating). Unknown when the asset or the approval is missing |
| CarbonAssets.Pallet.ForceCancelApproval | src/lib.rs:1368-1398 | as `cancel_approval` for any owner, by the force origin or the asset's admin. The asset check comes before the permission check |
| CarbonAssets.Pallet.TransferApproved | src/lib.rs:1419-1430 | Unapproved without an approval covering `amount`; otherwise the transfer guard's verdict. On success the balances are `Transferred` and the approval shrinks by `amount`, being removed when used up |
| CarbonAssets.Pallet.BuildGenesis | src/lib.rs:335-410 | the build succeeds exactly when the specification `Genesis` does. It then leaves exactly that state, which keeps both invariants and bounded metadata |
| CarbonAssets.Pallet.IncreaseBalance | src/lib.rs:390-407 | crediting 0 changes nothing. Otherwise the result is the credit guard's verdict (unknown asset, overflow, below minimum, issuer) and success gives `Credited` |
| CarbonAssets.Pallet.DecreaseBalance | src/lib.rs:843-847 | debiting 0 changes nothing. Otherwise it fails exactly when the debit guard says so (unknown, frozen, no holding, frozen holding, balance low, admin), and success gives `Debited` by the dust-adjusted amount |
| CarbonAssets.Pallet.DoTransfer | src/lib.rs:884-899 | as `do_transfer`, which `transfer` and `force_transfer` call (`src/lib.rs:898`, `973`): 0 succeeds without a change. Otherwise it fails exactly when the transfer guard says so. On success it returns the dust-adjusted amount, the state is `Transferred` by it, and both invariants are kept |
| CarbonAssets.Pallet.DoApproveTransfer | src/lib.rs:1306-1315 | as `do_approve_transfer`: the result is the approval guard's verdict (Unknown, frozen asset, reserve). A failure changes nothing. Success gives `Approved`: additive saturating amount, deposit topped up, a new approval counted |
| CarbonAssets.Pallet.DoTransferApproved | src/lib.rs:1419-1430 | as `do_transfer_approved`: Unapproved without an approval of at least `amount`, which changes nothing. On success the balances move as in a transfer and the approval shrinks by `amount`, being removed at 0 |
| CarbonAssets.Pallet.UpdateMetadata | src/lib.rs:650-658 | as `update_metadata`, which `set_project_data` calls (`src/lib.rs:657`): the result is the project-data guard's verdict. On success only the url and IPFS link of that metadata record change |
| CarbonAssets.Pallet.DoSetMetadata | src/lib.rs:604-637 | as `do_set_metadata`, which `create` calls with 9 decimals (`src/lib.rs:636`): the result is the metadata guard's verdict. On success name, symbol and decimals are stored, the deposit is recomputed for the new strings, and the record is unfrozen. The url and IPFS link already stored are kept |
| CarbonAssets.Pallet.DoForceCreate | src/lib.rs:680-690 | as `do_force_create`: InUse for an id in use, MinBalanceZero for a zero minimum. Success inserts the asset with `owner` in every role and nothing issued, and changes nothing else |
| CarbonAssets.GenesisAssetsSucceedIff | src/lib.rs:339-341 | inserting the genesis assets succeeds exactly when the ids are distinct and unused and every minimum balance is positive |
| CarbonAssets.GenesisAssetsContents | src/lib.rs:342-358 | each genesis asset is stored with its owner in every role, nothing issued and its configured minimum balance, and nothing else is added |
| CarbonAssets.GenesisMetadataSucceedsIff | src/lib.rs:361-375 | writing the genesis metadata succeeds exactly when every entry names an inserted asset and has name and symbol within the limit |
| CarbonAssets.GenesisMetadataKeys | src/lib.rs:361-387 | genesis metadata is written only for inserted assets, with strings within the limit |
| CarbonAssets.GenesisMetadataLastWins | src/lib.rs:378-387 | an asset named more than once carries the record of its last entry: no deposit, empty url and link, not frozen |
| CarbonAssets.GenesisMetadataKeepsOthers | src/lib.rs:360-388 | metadata of assets the list does not name is untouched |
| CarbonAssets.GenesisAccountsKeepInvariants | src/lib.rs:390-407 | crediting the genesis balances keeps both invariants |
| CarbonAssets.GenesisAccountsSupply | src/lib.rs:390-407 | each asset's supply grows by exactly the genesis amounts listed for it; nothing but supplies and holdings changes |
| CarbonAssets.GenesisAccountsBalances | src/lib.rs:390-407 | each holding grows by exactly the genesis amounts listed for it |
| CarbonAssets.GenesisKeepsInvariants | src/lib.rs:335-410 | a genesis that does not abort stores the configured custodian. Its state is well formed and conserved, with bounded metadata, and each genesis asset's supply is the total listed for it |
| Ledger.CreditedKeepsConserved | src/lib.rs:745-755 | a credit raises one holding and its asset's supply by the same amount, so supplies stay the sums of holdings |
| Ledger.DebitedKeepsConserved | src/lib.rs:827-863 | a debit lowers one holding (removing it when it falls below the minimum) and the supply by the same amount |
| Ledger.TransferredKeepsConserved | src/lib.rs:884-899 | a transfer between two holders leaves every supply the sum of its holdings |
| Ledger.ApprovedKeepsInvariants | src/lib.rs:1306-1315 | approving changes no holding or supply |
| Ledger.SpentKeepsInvariants | src/lib.rs:1419-1430 | using an approval changes no holding or supply |
| Ledger.SpendingAllCancels | src/lib.rs:1419-1430 | using up an approval entirely has the same effect as cancelling it |
| AssetStorage.AccumulateBurn | src/lib.rs:792-799 | the certificate entry becomes amount when absent, and the saturating sum of old and amount otherwise; no other entry changes |
| AssetStorage.CertificatesNeverDecrease | src/lib.rs:792-799 | a certificate never shrinks |
| AssetStorage.DebitActual | src/lib.rs:777-806 | the amount debited never exceeds the balance. It is exactly the requested amount when that leaves at least the minimum balance, and the whole balance when it would leave less (or, with best effort, when more than the balance is asked). It leaves either nothing or at least the minimum balance |
| AssetStorage.BalanceAtMostSupply | src/lib.rs:777-806 | in a conserved state no holding exceeds its asset's supply |
| Fungibles.AssetExists | src/impl_fungibles.rs:81-83 | holds exactly when an asset record is stored; an asset that does not exist reads zero issuance and minimum |
| Fungibles.AccountBalance | src/impl_fungibles.rs:50-52 | `balance` and `total_balance` (`src/impl_fungibles.rs:85-87`): the holding's balance, and 0 without a holding |
| CarbonAssets.Pallet.BalanceOf | src/impl_fungibles.rs:50-52 | `Self::balance`, the pallet's own read used by `set_balance` (`src/impl_fungibles.rs:160`): the stored holding's balance, or 0 without one |
| Fungibles.TotalIssuance | src/impl_fungibles.rs:38-42 | the asset's supply, and 0 for an unknown asset |
| Fungibles.MinimumBalance | src/impl_fungibles.rs:44-48 | the asset's minimum balance, and 0 for an unknown asset |
| Fungibles.Allowance | src/impl_fungibles.rs:229-237 | the stored approval amount, and 0 without an approval |
| Fungibles.Name | src/impl_fungibles.rs:198-200 | the stored name, and empty without metadata |
| Fungibles.Symbol | src/impl_fungibles.rs:202-204 | the stored symbol, and empty without metadata |
| Fungibles.Decimals | src/impl_fungibles.rs:206-208 | the stored decimals, and 0 without metadata |
| Fungibles.TotalIssuanceIsSumOfBalances | src/impl_fungibles.rs:38-42 | in a conserved pallet the total issuance is the sum of all balances of the asset, and bounds each of them |
| Fungibles.UnknownAssetReadsDefaults | src/impl_fungibles.rs:38-83 | an asset that does not exist reads as no issuance, no minimum, no balances and no metadata |
| Fungibles.MetadataReadsWithinLimit | src/impl_fungibles.rs:198-204 | names and symbols read back are within the string limit |
| Fungibles.SetTotalIssuance | src/impl_fungibles.rs:131-137 | overwrites only the supply of an existing asset, and does nothing for an unknown one |
| Fungibles.SetBalance | src/impl_fungibles.rs:155-167 | the intended `set_balance`: the new storage and the returned balance are those of `SetBalanceOutcome`. Above the target it burns the excess with best effort; it changes storage exactly when that burn's guard passes, and then debits the holding by the best-effort amount. Below the target it mints the shortfall; it returns the target exactly when that mint's guard passes, and then credits the shortfall. The returned value is the balance afterwards: the target, the old balance after a failure, or 0 when a target below the minimum balance makes the burn take the whole holding. A holding already at the target is left alone, and supply conservation is kept |
| Fungibles.SetBalanceReturnsNewBalance | src/impl_fungibles.rs:155-167 | the balance `set_balance` returns is the balance the holding has in its new storage |
| Fungibles.SetBalanceHitsTarget | src/impl_fungibles.rs:160-166 | the outcome reaches the target, or leaves storage alone and returns the old balance, or burns a holding whose target is dust down to 0. A mint of the shortfall reaches the target exactly when its guard passes; a burn to a target at or above the minimum balance reaches it |
| Fungibles.SetBalanceChangesUnlessRefused | src/impl_fungibles.rs:160-166 | storage stays as it was exactly when the burn of the excess (or the mint of the shortfall) is refused by its guard |
| Fungibles.SetBalanceKeepsWellFormed | src/impl_fungibles.rs:160-166 | the outcome keeps every holding and metadata record attached to an existing asset |
| Fungibles.SetBalanceKeepsConserved | src/impl_fungibles.rs:160-166 | the outcome keeps every asset's supply equal to the sum of its holdings |
| Fungibles.WriteBalance | src/impl_fungibles.rs:141-148 | `write_balance` never stores anything; it fails with Unavailable |
| Fungibles.SetBalanceAsWritten | src/impl_fungibles.rs:130-167 | `set_balance` as written: the balance never moves, and the returned value is the current balance, so a target different from it is never reached |
| Fungibles.Approve | src/impl_fungibles.rs:243-250 | the verdict is the approval guard's. On success the storage is `Approved`: the allowance grows by `amount` and saturates at the 64-bit maximum; its deposit is raised to the approval deposit; a new approval is counted on the asset; no holding and no other allowance changes. A failure changes nothing, and supplies stay the sums of holdings |
| Fungibles.TransferFrom | src/impl_fungibles.rs:253-261 | Unapproved without an approval or when the allowance is smaller than `amount`. Within the allowance the verdict is Ok for a zero amount, and otherwise the transfer guard's verdict on the old storage. On success the holdings are those of `Transferred` by the dust-adjusted amount from `owner` to `dest`, or unchanged for a zero amount or a transfer to oneself. The approvals are those of `Spent`: the allowance shrinks by exactly `amount` and no other allowance changes. A failure changes nothing, and supplies stay the sums of holdings |
| Accounts.RoleMasksAreDistinctBits | pallets/evercity-accounts/src/accounts.rs:11-42 | the 13 role masks are distinct single bits and together make 0x1FFF |
| Accounts.IsRolesCorrect | pallets/evercity-accounts/src/accounts.rs:44-48 | a role mask is correct exactly when it is non-zero and has no bit outside all the roles |
| Accounts.IsRolesMaskIncluded | pallets/evercity-accounts/src/accounts.rs:50-53 | holds exactly when the masks share a bit, and the positivity conjunct adds nothing |
| Accounts.MasterInclusionExamples | pallets/evercity-accounts/src/tests.rs:377-390 | which role combinations include the master role and which do not |
| Accounts.NewAccountStruct | pallets/evercity-accounts/src/accounts.rs:70-78 | the account record has exactly the given roles, identity and creation time |
| EvercityAccounts.GenesisRegistryEmptyIff | pallets/evercity-accounts/src/lib.rs:40-47 | the genesis registry is empty exactly when the genesis list is, so the fuse starts blown exactly for a non-empty list |
| EvercityAccounts.Registry.SetMaster | pallets/evercity-accounts/src/lib.rs:107-117 | while the fuse is intact, the caller is stored as master with identity 0 and the fuse is blown; every later call fails with InvalidAction and changes nothing |
| EvercityAccounts.Registry.NoMasterBeforeFuse | pallets/evercity-accounts/src/lib.rs:107-117 | while the fuse is intact there is no master |
| EvercityAccounts.Registry.AccountAddWithRoleAndData | pallets/evercity-accounts/src/lib.rs:132-142 | a master adds an unregistered account with correct non-master roles. Error order: not authorized, exists, roles incorrect, master included. The set of masters is unchanged |
| EvercityAccounts.Registry.AccountSetWithRoleAndData | pallets/evercity-accounts/src/lib.rs:154-167 | a master, not acting on itself, adds correct non-master roles to a registered account; old roles are kept and masters are unchanged |
| EvercityAccounts.Registry.AddMasterRole | pallets/evercity-accounts/src/lib.rs:178-189 | a master makes another non-master account a master. An unregistered one is inserted with the default record. The masters then gain exactly `who` |
| EvercityAccounts.Registry.AccountWithdrawRole | pallets/evercity-accounts/src/lib.rs:201-213 | as written: the roles are toggled with exclusive or; the master bit and the set of masters are unchanged |
| EvercityAccounts.Registry.AccountRevokeRole | pallets/evercity-accounts/src/lib.rs:201-213 | the intended withdrawal: afterwards `who` holds none of the withdrawn roles and keeps all others |
| EvercityAccounts.Registry.AccountDisable | pallets/evercity-accounts/src/lib.rs:226-238 | a master clears every role of another registered account; it then holds no role and is no longer a master |
| EvercityAccounts.Registry.constructor | pallets/evercity-accounts/src/lib.rs:40-47 | the genesis registry holds the configured accounts, and the fuse is blown exactly when that list is non-empty |
| EvercityAccounts.Registry.AccountIsMaster | pallets/evercity-accounts/src/lib.rs:251-253 | holds exactly when the account is registered and its roles include the master bit; the default record of an unregistered account holds none |
| EvercityAccounts.Registry.AccountIsCustodian | pallets/evercity-accounts/src/lib.rs:261-263 | holds exactly when the account is registered and its roles include the custodian bit; the default record of an unregistered account holds none |
| EvercityAccounts.Registry.AccountIsIssuer | pallets/evercity-accounts/src/lib.rs:271-273 | holds exactly when the account is registered and its roles include the issuer bit; the default record of an unregistered account holds none |
| EvercityAccounts.Registry.AccountIsInvestor | pallets/evercity-accounts/src/lib.rs:281-283 | holds exactly when the account is registered and its roles include the investor bit; the default record of an unregistered account holds none |
| EvercityAccounts.Registry.AccountIsAuditor | pallets/evercity-accounts/src/lib.rs:291-293 | holds exactly when the account is registered and its roles include the auditor bit; the default record of an unregistered account holds none |
| EvercityAccounts.Registry.AccountIsManager | pallets/evercity-accounts/src/lib.rs:301-303 | holds exactly when the account is registered and its roles include the manager bit; the default record of an unregistered account holds none |
| EvercityAccounts.Registry.AccountIsImpactReporter | pallets/evercity-accounts/src/lib.rs:311-313 | holds exactly when the account is registered and its roles include the impact reporter bit; the default record of an unregistered account holds none |
| EvercityAccounts.Registry.AccountIsBondArranger | pallets/evercity-accounts/src/lib.rs:321-323 | holds exactly when the account is registered and its roles include the bond arranger bit; the default record of an unregistered account holds none |
| EvercityAccounts.Registry.AccountIsCcProjectOwner | pallets/evercity-accounts/src/lib.rs:343-345 | holds exactly when the account is registered and its roles include the carbon-credit project owner bit; the default record of an unregistered account holds none |
| EvercityAccounts.Registry.AccountIsCcAuditor | pallets/evercity-accounts/src/lib.rs:354-356 | holds exactly when the account is registered and its roles include the carbon-credit auditor bit; the default record of an unregistered account holds none |
| EvercityAccounts.Registry.AccountIsCcStandard | pallets/evercity-accounts/src/lib.rs:365-367 | holds exactly when the account is registered and its roles include the carbon-credit standard bit; the default record of an unregistered account holds none |
| EvercityAccounts.Registry.AccountIsCcInvestor | pallets/evercity-accounts/src/lib.rs:376-378 | holds exactly when the account is registered and its roles include the carbon-credit investor bit; the default record of an unregistered account holds none |
| EvercityAccounts.Registry.AccountIsCcRegistry | pallets/evercity-accounts/src/lib.rs:387-389 | holds exactly when the account is registered and its roles include the carbon-credit registry bit; the default record of an unregistered account holds none |
| EvercityAccounts.Registry.SelectedRoleReadsDefault | pallets/evercity-accounts/src/lib.rs:398-400 | the registered-only form of `account_is_selected_role` agrees with the source's read through the default record: the result is whether the read mask shares a bit with `role` |
| EvercityAccounts.Registry.AccountIsSelectedRole | pallets/evercity-accounts/src/lib.rs:398-400 | holds exactly when the account is registered and shares a bit with the mask |
| EvercityAccounts.Registry.AccountTokenMintBurnAllowed | pallets/evercity-accounts/src/lib.rs:331-334 | holds exactly when the account is an investor or an issuer |
| EvercityAccounts.Registry.UnregisteredHoldsNoRole | pallets/evercity-accounts/src/lib.rs:251-400 | an unregistered account satisfies none of the role predicates |
| EvercityAccounts.ToggleOfUnheldRoleGrantsIt | pallets/evercity-accounts/src/lib.rs:207-209 | toggling a role the account does not hold grants it |
| EvercityAccounts.ToggleOfHeldRolesRevokesThem | pallets/evercity-accounts/src/lib.rs:207-209 | toggling roles the account holds revokes them |

## Left out

- `destroy`, `transfer_keep_alive`, `touch` and `refund`: they are not part of this model. The keep-alive flag, account touching and deposit refunds are not modelled.
- Currency deposits (`reserve`, `repatriate_reserved`, `unreserve`): only their success or failure is modelled, as a boolean parameter. Reserved amounts held by accounts are not tracked.
- Events, weights, `LastNonce` and how `get_new_asset_id` derives an id. The allocated id, or its error, is a parameter of `Create`.
- The asset fields `accounts` and `sufficients`, consumer and provider references, and existential-deposit rules: these lie in `frame_system` and in `functions.rs`, which is not part of this model. The model keeps these fields unchanged.
- The freezer hooks and the `reducible_balance`, `can_deposit` and `can_withdraw` wrappers of `src/impl_fungibles.rs:54-79`, which delegate to code that is not part of this model.
- Fungibles.SetBalance: `mint_into` and `burn_from` are trait defaults of `frame_support`, which is not part of this model. `SetBalance` assumes they reach the pallet's own credit (no issuer check) and best-effort debit (no admin check). That needs `increase_balance` and `decrease_balance` overrides, which `src/impl_fungibles.rs:130-168` lacks. The implementation as it stands is `SetBalanceAsWritten` (see "## Findings").
- The mint-into/burn-from defaults' own checks (total-issuance overflow, reducible balance) are not modelled separately. In `SetBalanceAsWritten` their failures and the failing write all end in the same result: the old balance.
- Fungibles.SetTotalIssuance: it writes the supply without touching balances, so it does not preserve `Conserved`. Its contract does not claim it.
- The fungibles `create` and metadata `set` (`src/impl_fungibles.rs:170-179`, `211-223`) delegate unchanged to `do_force_create` and `do_set_metadata`. These are modelled as `Pallet.DoForceCreate` and `Pallet.DoSetMetadata`.
- Error order where the tests show each error alone: `ProjectDataFailure` checks, in order, BadMetadata, Unknown, NoPermission, CannotChangeAfterMint, NoMetadata. `src/tests.rs:1031-1141` fixes each error but not their order, which is a modelling choice.
- `DoSetMetadata` keeps the url and IPFS link already stored when the owner rewrites name, symbol and decimals. This is a modelling choice that `update_metadata` relies on.
- `DebitFailure` and `DebitActual` cap a debit at the holder's balance only. Upstream pallet-assets' `reducible_balance` also caps it at the asset's supply, and its `can_decrease` refuses a debit larger than the supply. The two agree whenever supplies are the sums of holdings (`Conserved`); of the modelled operations, only `SetTotalIssuance` can break that.
- The check order of `CreditFailure` and `DebitFailure` (and hence of `IncreaseBalance`, `DecreaseBalance`, `DoTransfer`) follows the upstream pallet-assets helpers. The tests fix the errors, not their order.
- `T::Lookup` account lookups always succeed, and the timestamp is a parameter.
- Genesis metadata decimals are taken as given. The `u32` length conversion of `StringLimit` is not modelled.

## Findings

| source | as written | input that shows it | evidently intended | confidence | as-written member | corrected member |
|---|---|---|---|---|---|---|
| src/impl_fungibles.rs:138-167 | the `Unbalanced` impl overrides neither `increase_balance` nor `decrease_balance`, although its `handle_dust` comment says they have non-default implementations. The trait defaults behind `mint_into` and `burn_from` then store through `write_balance`, which always fails with Unavailable, and `unwrap_or(b)` hides the failure | `set_balance(id, who, 10)` for an existing asset where `who` holds 0: it returns 0 and the balance stays 0 | `set_balance` reaches the asked balance, as upstream pallet-assets' overrides make it | medium, for a release build: in a debug build the `defensive!` in `write_balance` (src/impl_fungibles.rs:146) panics instead (not executed) | Fungibles.SetBalanceAsWritten | Fungibles.SetBalance |
| pallets/evercity-accounts/src/lib.rs:207-209 | `account_withdraw_role` clears the roles with `acc.roles ^= role`. This toggles them, so a role the account does not hold is granted | an account with roles `AUDITOR_ROLE_MASK` (16), withdrawing `ISSUER_ROLE_MASK` (4), ends with roles 20, i.e. it becomes an issuer | remove the roles: `acc.roles &= !role` | high (not executed) | EvercityAccounts.Registry.AccountWithdrawRole, with EvercityAccounts.ToggleOfUnheldRoleGrantsIt | EvercityAccounts.Registry.AccountRevokeRole |
