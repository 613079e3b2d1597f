/**
 * The pallet seen through the generic fungible-token interfaces: reads of
 * issuance, minimum balance, balances, metadata and allowances with their
 * defaults, the unbalanced adjustments `set_total_issuance` and
 * `set_balance`, and approvals.
 */
module Fungibles {
  import opened Dispatch
  import opened Sums
  import opened AssetStorage
  import opened Ledger
  import opened CarbonAssets

  // ---------------------------------------------------------------------
  // Inspection.

  /** `total_issuance`: the asset's supply, 0 for an unknown asset. */
  function TotalIssuance(p: Pallet, id: AssetId): (r: Balance)
    reads p
    ensures id in p.asset ==> r == p.asset[id].supply
    ensures id !in p.asset ==> r == 0
  {
    if id in p.asset then p.asset[id].supply else 0
  }

  /** `minimum_balance`: the asset's minimum balance, 0 for an unknown asset. */
  function MinimumBalance(p: Pallet, id: AssetId): (r: Balance)
    reads p
    ensures id in p.asset ==> r == p.asset[id].minBalance
    ensures id !in p.asset ==> r == 0
  {
    if id in p.asset then p.asset[id].minBalance else 0
  }

  /** `asset_exists`: whether an asset record is stored. */
  predicate AssetExists(p: Pallet, id: AssetId)
    reads p
    ensures AssetExists(p, id) <==> id in p.asset
    ensures !AssetExists(p, id) ==> TotalIssuance(p, id) == 0 && MinimumBalance(p, id) == 0
  {
    id in p.asset
  }

  /** `balance` and `total_balance`: the holding's balance, 0 without a holding. */
  function AccountBalance(p: Pallet, id: AssetId, who: AccountId): (r: Balance)
    reads p
    ensures (id, who) in p.account ==> r == p.account[(id, who)].balance
    ensures (id, who) !in p.account ==> r == 0
  {
    p.BalanceOf(id, who)
  }

  /** `allowance`: what `delegate` may still move of `owner`'s holding, 0 without an approval. */
  function Allowance(p: Pallet, id: AssetId, owner: AccountId, delegate: AccountId): (r: Balance)
    reads p
    ensures (id, owner, delegate) in p.approvals ==> r == p.approvals[(id, owner, delegate)].amount
    ensures (id, owner, delegate) !in p.approvals ==> r == 0
  {
    ApprovalAt(p.approvals, (id, owner, delegate)).amount
  }

  /** `name`: the stored name, empty without metadata. */
  function Name(p: Pallet, id: AssetId): (r: seq<Byte>)
    reads p
    ensures id in p.metadata ==> r == p.metadata[id].name
    ensures id !in p.metadata ==> r == []
  {
    p.MetadataOf(id).name
  }

  /** `symbol`: the stored symbol, empty without metadata. */
  function Symbol(p: Pallet, id: AssetId): (r: seq<Byte>)
    reads p
    ensures id in p.metadata ==> r == p.metadata[id].symbol
    ensures id !in p.metadata ==> r == []
  {
    p.MetadataOf(id).symbol
  }

  /** `decimals`: the stored decimals, 0 without metadata. */
  function Decimals(p: Pallet, id: AssetId): (r: Byte)
    reads p
    ensures id in p.metadata ==> r == p.metadata[id].decimals
    ensures id !in p.metadata ==> r == 0
  {
    p.MetadataOf(id).decimals
  }

  /** The total issuance of an asset is the sum of all balances held of it. */
  lemma TotalIssuanceIsSumOfBalances(p: Pallet, id: AssetId)
    requires p.Valid() && Conserved(p.Storage())
    ensures TotalIssuance(p, id) == Sum(Holdings(p.account, id))
    ensures forall who :: AccountBalance(p, id, who) <= TotalIssuance(p, id)
  {
    if id !in p.asset {
      assert Holdings(p.account, id) == map[];
      forall who: AccountId
        ensures AccountBalance(p, id, who) == 0
      {
        assert (id, who) !in p.account;
      }
    } else {
      forall who: AccountId
        ensures AccountBalance(p, id, who) <= TotalIssuance(p, id)
      {
        BalanceAtMostSupply(p.asset, p.account, (id, who));
      }
    }
  }

  /** Nothing can be read of an asset that does not exist: no issuance, no minimum, no balances, no metadata. */
  lemma UnknownAssetReadsDefaults(p: Pallet, id: AssetId, who: AccountId)
    requires p.Valid() && !AssetExists(p, id)
    ensures TotalIssuance(p, id) == 0 && MinimumBalance(p, id) == 0 && AccountBalance(p, id, who) == 0
    ensures Name(p, id) == [] && Symbol(p, id) == [] && Decimals(p, id) == 0
  {
    assert (id, who) !in p.account;
    assert id !in p.metadata;
  }

  /** Names and symbols read back are never longer than the string limit. */
  lemma MetadataReadsWithinLimit(p: Pallet, id: AssetId)
    requires p.Valid()
    ensures |Name(p, id)| <= p.stringLimit && |Symbol(p, id)| <= p.stringLimit
  {
  }

  // ---------------------------------------------------------------------
  // Unbalanced adjustments.

  /** Changing an asset's supply keeps every holding and metadata record attached to an existing asset. */
  lemma SupplyEditKeepsWellFormed(s: State, id: AssetId, supply: Balance)
    requires WellFormed(s) && id in s.asset
    ensures WellFormed(s.(asset := s.asset[id := s.asset[id].(supply := supply)]))
  {
    assert s.asset[id := s.asset[id].(supply := supply)].Keys == s.asset.Keys;
  }

  /**
   * `set_total_issuance`: overwrites the supply of an existing asset and
   * does nothing for an unknown one. It does not touch any balance, so it
   * does not keep supplies equal to the sums of holdings.
   */
  method SetTotalIssuance(p: Pallet, id: AssetId, amount: Balance)
    requires p.Valid()
    modifies p
    ensures p.Valid()
    ensures id in old(p.asset) ==>
      p.Storage() == old(p.Storage()).(asset := old(p.asset)[id := old(p.asset)[id].(supply := amount)])
    ensures id !in old(p.asset) ==> p.Storage() == old(p.Storage())
    ensures TotalIssuance(p, id) == (if id in old(p.asset) then amount else 0)
  {
    if id in p.asset {
      var s := p.Storage();
      SupplyEditKeepsWellFormed(s, id, amount);
      p.Commit(s.(asset := s.asset[id := s.asset[id].(supply := amount)]));
    }
  }

  /**
   * The intended outcome of `set_balance` on storage `s`, as the new storage
   * and the balance returned: a best-effort burn of the excess without the
   * admin check, or a mint of the shortfall without the issuer check; a
   * failing guard leaves `s` and returns the old balance.
   */
  function SetBalanceOutcome(s: State, id: AssetId, who: AccountId, amount: Balance): (State, Balance)
  {
    var b := BalanceAt(s.account, (id, who));
    if b > amount then
      if DebitFailure(s, id, who, b - amount, true, None).Some? then (s, b)
      else
        var actual := DebitActual(b, b - amount, true, s.asset[id].minBalance);
        (Debited(s, id, who, actual), b - actual)
    else if b == amount || CreditFailure(s, id, who, amount - b, None).Some? then (s, b)
    else (Credited(s, id, who, amount - b), amount)
  }

  // The three shapes of the outcome, one lemma each, so that the method
  // proving itself against SetBalanceOutcome meets only the one it needs.

  lemma BurnOutcome(s: State, id: AssetId, who: AccountId, amount: Balance)
    requires BalanceAt(s.account, (id, who)) > amount
    requires DebitFailure(s, id, who, BalanceAt(s.account, (id, who)) - amount, true, None).None?
    ensures id in s.asset && (id, who) in s.account
    ensures var b := BalanceAt(s.account, (id, who));
      var actual := DebitActual(b, b - amount, true, s.asset[id].minBalance);
      SetBalanceOutcome(s, id, who, amount) == (Debited(s, id, who, actual), b - actual)
  {
  }

  lemma MintOutcome(s: State, id: AssetId, who: AccountId, amount: Balance)
    requires BalanceAt(s.account, (id, who)) < amount
    requires CreditFailure(s, id, who, amount - BalanceAt(s.account, (id, who)), None).None?
    ensures id in s.asset
    ensures SetBalanceOutcome(s, id, who, amount) == (Credited(s, id, who, amount - BalanceAt(s.account, (id, who))), amount)
  {
  }

  lemma UnchangedOutcome(s: State, id: AssetId, who: AccountId, amount: Balance)
    requires var b := BalanceAt(s.account, (id, who));
      (b > amount && DebitFailure(s, id, who, b - amount, true, None).Some?) || b == amount ||
      (b < amount && CreditFailure(s, id, who, amount - b, None).Some?)
    ensures SetBalanceOutcome(s, id, who, amount) == (s, BalanceAt(s.account, (id, who)))
  {
  }

  /** The balance `set_balance` returns is the balance the holding then has. */
  lemma SetBalanceReturnsNewBalance(s: State, id: AssetId, who: AccountId, amount: Balance)
    ensures SetBalanceOutcome(s, id, who, amount).1 == BalanceAt(SetBalanceOutcome(s, id, who, amount).0.account, (id, who))
  {
    var b := BalanceAt(s.account, (id, who));
    if b > amount && DebitFailure(s, id, who, b - amount, true, None).None? {
      var actual := DebitActual(b, b - amount, true, s.asset[id].minBalance);
      var t := Debited(s, id, who, actual);
      if b - actual < s.asset[id].minBalance {
        assert actual == b;
      } else {
        assert t.account[(id, who)].balance == b - actual;
      }
    }
  }

  /**
   * `set_balance` reaches the asked balance unless a guard fails (nothing
   * changes) or the target is dust below the minimum balance (the whole
   * holding is burnt and 0 returned). A mint of the shortfall succeeds
   * exactly when its guard passes; a holding already at the target is left
   * alone.
   */
  lemma SetBalanceHitsTarget(s: State, id: AssetId, who: AccountId, amount: Balance)
    ensures var (t, r) := SetBalanceOutcome(s, id, who, amount);
      r == amount || t == s ||
      (id in s.asset && r == 0 && amount < BalanceAt(s.account, (id, who)) && amount < s.asset[id].minBalance)
    ensures var (t, r) := SetBalanceOutcome(s, id, who, amount);
      t == s ==> r == BalanceAt(s.account, (id, who))
    ensures BalanceAt(s.account, (id, who)) == amount ==> SetBalanceOutcome(s, id, who, amount) == (s, amount)
    ensures var b := BalanceAt(s.account, (id, who));
      b < amount ==> (SetBalanceOutcome(s, id, who, amount).1 == amount <==> CreditFailure(s, id, who, amount - b, None).None?)
    ensures var b := BalanceAt(s.account, (id, who));
      b > amount && DebitFailure(s, id, who, b - amount, true, None).None? && amount >= s.asset[id].minBalance ==>
        SetBalanceOutcome(s, id, who, amount).1 == amount
  {
    var b := BalanceAt(s.account, (id, who));
    if b > amount && DebitFailure(s, id, who, b - amount, true, None).None? {
      var actual := DebitActual(b, b - amount, true, s.asset[id].minBalance);
      if amount >= s.asset[id].minBalance {
        assert actual == b - amount;
      } else if actual != b - amount {
        assert actual == b;
      }
    }
  }

  /**
   * `set_balance` changes storage exactly when the burn or mint it needs is
   * allowed: a refused burn or mint is the only way a holding away from the
   * target stays as it was.
   */
  lemma SetBalanceChangesUnlessRefused(s: State, id: AssetId, who: AccountId, amount: Balance)
    ensures var b := BalanceAt(s.account, (id, who));
      b > amount ==> (SetBalanceOutcome(s, id, who, amount).0 == s <==> DebitFailure(s, id, who, b - amount, true, None).Some?)
    ensures var b := BalanceAt(s.account, (id, who));
      b < amount ==> (SetBalanceOutcome(s, id, who, amount).0 == s <==> CreditFailure(s, id, who, amount - b, None).Some?)
  {
    var b := BalanceAt(s.account, (id, who));
    SetBalanceReturnsNewBalance(s, id, who, amount);
    if b > amount && DebitFailure(s, id, who, b - amount, true, None).None? {
      var actual := DebitActual(b, b - amount, true, s.asset[id].minBalance);
      assert actual == b - amount || actual == b;
      assert BalanceAt(SetBalanceOutcome(s, id, who, amount).0.account, (id, who)) < b;
    } else if b < amount && CreditFailure(s, id, who, amount - b, None).None? {
      assert BalanceAt(SetBalanceOutcome(s, id, who, amount).0.account, (id, who)) == amount;
    }
  }

  /** `set_balance` keeps every holding and metadata record attached to an existing asset. */
  lemma SetBalanceKeepsWellFormed(s: State, id: AssetId, who: AccountId, amount: Balance)
    requires WellFormed(s)
    ensures WellFormed(SetBalanceOutcome(s, id, who, amount).0)
  {
    var b := BalanceAt(s.account, (id, who));
    if b > amount && DebitFailure(s, id, who, b - amount, true, None).None? {
      DebitedKeepsWellFormed(s, id, who, DebitActual(b, b - amount, true, s.asset[id].minBalance));
    } else if b < amount && CreditFailure(s, id, who, amount - b, None).None? {
      CreditedKeepsWellFormed(s, id, who, amount - b);
    }
  }

  /** `set_balance` keeps every supply the sum of its holdings. */
  lemma SetBalanceKeepsConserved(s: State, id: AssetId, who: AccountId, amount: Balance)
    requires Conserved(s)
    ensures Conserved(SetBalanceOutcome(s, id, who, amount).0)
  {
    var b := BalanceAt(s.account, (id, who));
    if b > amount && DebitFailure(s, id, who, b - amount, true, None).None? {
      BurnKeepsConserved(s, id, who, amount);
    } else if b < amount && CreditFailure(s, id, who, amount - b, None).None? {
      MintKeepsConserved(s, id, who, amount);
    } else {
      UnchangedOutcome(s, id, who, amount);
    }
  }

  lemma BurnKeepsConserved(s: State, id: AssetId, who: AccountId, amount: Balance)
    requires Conserved(s)
    requires BalanceAt(s.account, (id, who)) > amount
    requires DebitFailure(s, id, who, BalanceAt(s.account, (id, who)) - amount, true, None).None?
    ensures Conserved(SetBalanceOutcome(s, id, who, amount).0)
  {
    var b := BalanceAt(s.account, (id, who));
    DebitedKeepsConserved(s, id, who, b - amount, true);
  }

  lemma MintKeepsConserved(s: State, id: AssetId, who: AccountId, amount: Balance)
    requires Conserved(s)
    requires BalanceAt(s.account, (id, who)) < amount
    requires CreditFailure(s, id, who, amount - BalanceAt(s.account, (id, who)), None).None?
    ensures Conserved(SetBalanceOutcome(s, id, who, amount).0)
  {
    var d := amount - BalanceAt(s.account, (id, who));
    assert SetBalanceOutcome(s, id, who, amount).0 == Credited(s, id, who, d);
    CreditedKeepsConserved(s, id, who, d);
  }

  /**
   * `set_balance`: moves the balance of `who` towards `amount`, burning the
   * excess with best effort or minting the shortfall, and returns the
   * balance it then holds; a failed burn or mint leaves everything as it
   * was and returns the old balance. A best-effort burn that would leave
   * dust takes the whole holding instead. This is the intended behaviour,
   * with `burn_from` and `mint_into` reaching the pallet's own debit and
   * credit; `SetBalanceAsWritten` below is what the implementation does.
   */
  method SetBalance(p: Pallet, id: AssetId, who: AccountId, amount: Balance) returns (r: Balance)
    requires p.Valid()
    modifies p
    ensures p.Valid()
    ensures r == AccountBalance(p, id, who)
    ensures p.Storage() == SetBalanceOutcome(old(p.Storage()), id, who, amount).0
    ensures r == SetBalanceOutcome(old(p.Storage()), id, who, amount).1
    ensures old(AccountBalance(p, id, who)) > amount ==>
      (p.Storage() == old(p.Storage()) <==>
       DebitFailure(old(p.Storage()), id, who, old(AccountBalance(p, id, who)) - amount, true, None).Some?)
    ensures old(AccountBalance(p, id, who)) < amount ==>
      (r == amount <==> CreditFailure(old(p.Storage()), id, who, amount - old(AccountBalance(p, id, who)), None).None?)
    ensures r == amount || r == 0 || p.Storage() == old(p.Storage())
    ensures r != amount && p.Storage() != old(p.Storage()) ==>
      r == 0 && amount < old(AccountBalance(p, id, who)) && amount < old(MinimumBalance(p, id))
    ensures p.Storage() == old(p.Storage()) ==> r == old(AccountBalance(p, id, who))
    ensures old(AccountBalance(p, id, who)) == amount ==> p.Storage() == old(p.Storage())
    ensures Conserved(old(p.Storage())) ==> Conserved(p.Storage())
  {
    ghost var s := p.Storage();
    var b := p.BalanceOf(id, who);
    if b > amount {
      r := BurnExcess(p, id, who, amount);
    } else {
      r := MintShortfall(p, id, who, amount);
    }
    SetBalanceReturnsNewBalance(s, id, who, amount);
    SetBalanceHitsTarget(s, id, who, amount);
    SetBalanceChangesUnlessRefused(s, id, who, amount);
    if Conserved(s) {
      SetBalanceKeepsConserved(s, id, who, amount);
    }
  }

  /** The burning arm of `set_balance`: a best-effort, forced `burn_from` of the excess. */
  method BurnExcess(p: Pallet, id: AssetId, who: AccountId, amount: Balance) returns (r: Balance)
    requires p.Valid() && AccountBalance(p, id, who) > amount
    modifies p
    ensures p.Valid()
    ensures p.Storage() == SetBalanceOutcome(old(p.Storage()), id, who, amount).0
    ensures r == SetBalanceOutcome(old(p.Storage()), id, who, amount).1
  {
    ghost var s := p.Storage();
    var b := p.BalanceOf(id, who);
    assert b == BalanceAt(s.account, (id, who)) && p.Storage() == s;
    var burnt := p.DecreaseBalance(id, who, b - amount, true, None);
    if burnt.Success? {
      r := b - burnt.value;
      BurnOutcome(s, id, who, amount);
    } else {
      r := b;
      UnchangedOutcome(s, id, who, amount);
    }
  }

  /** The minting arm of `set_balance`: a `mint_into` of the shortfall, which may be 0. */
  method MintShortfall(p: Pallet, id: AssetId, who: AccountId, amount: Balance) returns (r: Balance)
    requires p.Valid() && AccountBalance(p, id, who) <= amount
    modifies p
    ensures p.Valid()
    ensures p.Storage() == SetBalanceOutcome(old(p.Storage()), id, who, amount).0
    ensures r == SetBalanceOutcome(old(p.Storage()), id, who, amount).1
  {
    ghost var s := p.Storage();
    var b := p.BalanceOf(id, who);
    assert b == BalanceAt(s.account, (id, who)) && p.Storage() == s;
    var minted := p.IncreaseBalance(id, who, amount - b, None);
    if minted.Ok? && b < amount {
      r := amount;
      MintOutcome(s, id, who, amount);
    } else {
      r := if minted.Ok? then amount else b;
      UnchangedOutcome(s, id, who, amount);
    }
  }

  /** The error `write_balance` reports. */
  datatype WriteError = Unavailable

  /** `write_balance`: this implementation never stores a balance through it. */
  function WriteBalance(id: AssetId, who: AccountId, balance: Balance): (r: Result<Option<Balance>, WriteError>)
    ensures r.Failure? && r.error == Unavailable
  {
    Failure(Unavailable)
  }

  /**
   * `set_balance` as the implementation stands: it overrides neither
   * `increase_balance` nor `decrease_balance`, so the trait defaults behind
   * `burn_from` and `mint_into` store any changed balance through
   * `write_balance`, whose failure `unwrap_or(b)` swallows. The balance is
   * then never moved, and the old balance comes back. (The written value
   * does not matter, since every write fails.)
   */
  function SetBalanceAsWritten(p: Pallet, id: AssetId, who: AccountId, amount: Balance): (r: Balance)
    reads p
    ensures r == AccountBalance(p, id, who)
    ensures AccountBalance(p, id, who) != amount ==> r != amount
  {
    var b := p.BalanceOf(id, who);
    var written := if b == amount then Success(None) else WriteBalance(id, who, amount);
    if written.Success? then amount else b
  }

  // ---------------------------------------------------------------------
  // Approvals.

  /**
   * `approve`: the owner lets `delegate` move `amount` more of their
   * holding; the allowance then grows by `amount` (saturating at the
   * 64-bit maximum), its deposit is topped up to the approval deposit, a new
   * approval is counted on the asset, and nothing else changes.
   */
  method Approve(p: Pallet, id: AssetId, owner: AccountId, delegate: AccountId, amount: Balance, reserveOk: bool)
    returns (r: DispatchResult<Error>)
    requires p.Valid()
    modifies p
    ensures p.Valid()
    ensures r == OkUnless(old(p.ApproveFailure(id, owner, delegate, reserveOk)))
    ensures r.Err? ==> p.Storage() == old(p.Storage())
    ensures r.Ok? && old(Allowance(p, id, owner, delegate)) + amount <= U64_MAX ==>
      Allowance(p, id, owner, delegate) == old(Allowance(p, id, owner, delegate)) + amount
    ensures r.Ok? && old(Allowance(p, id, owner, delegate)) + amount > U64_MAX ==>
      Allowance(p, id, owner, delegate) == U64_MAX
    ensures r.Ok? ==> old(Allowance(p, id, owner, delegate)) <= Allowance(p, id, owner, delegate)
    ensures r.Ok? ==> p.Storage() == Approved(old(p.Storage()), (id, owner, delegate), amount, p.approvalDeposit)
    ensures forall key :: key != (id, owner, delegate) ==>
      ApprovalAt(p.approvals, key) == ApprovalAt(old(p.approvals), key)
    ensures Conserved(old(p.Storage())) ==> Conserved(p.Storage())
  {
    r := p.DoApproveTransfer(id, owner, delegate, amount, reserveOk);
  }

  /**
   * `transfer_from`: `delegate` moves `amount` of `owner`'s holding to
   * `dest` within its allowance, which then shrinks by `amount`: the
   * holdings are those of the transfer and the approvals those of the spend;
   * any failure leaves everything as it was.
   */
  method TransferFrom(p: Pallet, id: AssetId, owner: AccountId, delegate: AccountId, dest: AccountId, amount: Balance)
    returns (r: DispatchResult<Error>)
    requires p.Valid()
    modifies p
    ensures p.Valid()
    ensures old(Allowance(p, id, owner, delegate)) < amount ==> r == Err(Unapproved)
    ensures r.Err? ==> p.Storage() == old(p.Storage())
    ensures (id, owner, delegate) !in old(p.approvals) ==> r == Err(Unapproved)
    ensures (id, owner, delegate) in old(p.approvals) && amount <= old(Allowance(p, id, owner, delegate)) ==>
      r == (if amount == 0 then Ok else OkUnless(TransferFailure(old(p.Storage()), id, owner, dest, amount, None)))
    ensures r.Ok? ==> Allowance(p, id, owner, delegate) == old(Allowance(p, id, owner, delegate)) - amount
    ensures r.Ok? ==> AccountBalance(p, id, owner) + AccountBalance(p, id, dest) == old(AccountBalance(p, id, owner) + AccountBalance(p, id, dest))
    ensures r.Ok? ==>
      p.Storage() == Spent(old(p.Storage()).(account := p.account), (id, owner, delegate), amount)
    ensures r.Ok? && (amount == 0 || owner == dest) ==> p.account == old(p.account)
    ensures r.Ok? && amount > 0 && owner != dest ==>
      p.account == Transferred(old(p.Storage()), id, owner, dest,
        DebitActual(old(p.account)[(id, owner)].balance, amount, false, old(p.asset)[id].minBalance)).account
    ensures forall key :: key != (id, owner, delegate) ==>
      ApprovalAt(p.approvals, key) == ApprovalAt(old(p.approvals), key)
    ensures Conserved(old(p.Storage())) ==> Conserved(p.Storage())
  {
    ghost var s := p.Storage();
    r := p.DoTransferApproved(id, owner, delegate, dest, amount);
    if r.Ok? {
      SpentKeepsOtherApprovals(s.(account := p.account), (id, owner, delegate), amount);
    }
  }
}
