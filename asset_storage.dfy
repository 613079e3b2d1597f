/**
 * Storage of the carbon-assets pallet as values: the records it keeps per
 * asset, per holding, per approval and per burn, and the arithmetic that
 * debits, credits and burn certificates follow.
 */
module AssetStorage {
  import opened Dispatch
  import opened Sums

  type AssetId = nat

  /** `T::Balance`, a u64 in the runtime this model follows. */
  type Balance = U64

  type Byte = bv8

  /** `AssetDetails`: who may do what with an asset, and its running totals. */
  datatype AssetDetails = AssetDetails(
    owner: AccountId,
    issuer: AccountId,
    admin: AccountId,
    freezer: AccountId,
    supply: Balance,
    deposit: Balance,
    minBalance: Balance,
    isSufficient: bool,
    accounts: U32,
    sufficients: U32,
    approvals: U32,
    isFrozen: bool)

  /** `AssetAccount`: one account's holding of one asset. */
  datatype AssetAccount = AssetAccount(balance: Balance, isFrozen: bool)

  /** `Approval`: how much a delegate may still move from an owner's holding. */
  datatype Approval = Approval(amount: Balance, deposit: Balance)

  /** `AssetMetadata`, with the project fields `url` and `data_ipfs`. */
  datatype AssetMetadata = AssetMetadata(
    deposit: Balance,
    name: seq<Byte>,
    symbol: seq<Byte>,
    url: seq<Byte>,
    dataIpfs: seq<Byte>,
    decimals: Byte,
    isFrozen: bool)

  /** What a value-query read of `Metadata` yields for an asset without metadata. */
  const DEFAULT_METADATA: AssetMetadata := AssetMetadata(0, [], [], [], [], 0, false)

  /**
   * The pallet's errors, together with the dispatch errors its calls can
   * return: `BadOrigin` from the origin checks, `Overflow` and
   * `BelowMinimum` from the balance arithmetic, and `ReserveFailed` for a
   * deposit the currency pallet refuses.
   */
  datatype Error =
    | BalanceLow
    | NoAccount
    | NoPermission
    | Unknown
    | Frozen
    | InUse
    | BadWitness
    | MinBalanceZero
    | NoProvider
    | BadMetadata
    | Unapproved
    | WouldDie
    | AlreadyExists
    | NoDeposit
    | WouldBurn
    | NoCustodian
    | NoMetadata
    | CannotChangeAfterMint
    | ErrorCreatingAssetId
    | BadOrigin
    | Overflow
    | BelowMinimum
    | ReserveFailed

  type AccountKey = (AssetId, AccountId)
  type ApprovalKey = (AssetId, AccountId, AccountId)
  type CertificateKey = (AccountId, AssetId)

  /** The pallet's storage items, one field each. */
  datatype State = State(
    asset: map<AssetId, AssetDetails>,
    account: map<AccountKey, AssetAccount>,
    approvals: map<ApprovalKey, Approval>,
    metadata: map<AssetId, AssetMetadata>,
    burnCertificate: map<CertificateKey, Balance>,
    custodian: Option<AccountId>)

  /** The balance an account holds of an asset; 0 without a holding. */
  function BalanceAt(account: map<AccountKey, AssetAccount>, key: AccountKey): (b: Balance)
    ensures key !in account ==> b == 0
    ensures key in account ==> b == account[key].balance
  {
    if key in account then account[key].balance else 0
  }

  /** Replace (Some) or delete (None) one holding. */
  function WriteAccount(account: map<AccountKey, AssetAccount>, key: AccountKey, entry: Option<AssetAccount>)
    : (a: map<AccountKey, AssetAccount>)
    ensures entry.None? ==> a == account - {key}
    ensures entry.Some? ==> a == account[key := entry.value]
  {
    if entry.None? then account - {key} else account[key := entry.value]
  }

  function EntryBalance(entry: Option<AssetAccount>): nat {
    if entry.None? then 0 else entry.value.balance
  }

  /** The balances of every holder of asset `id`. */
  ghost function Holdings(account: map<AccountKey, AssetAccount>, id: AssetId): map<AccountId, nat> {
    map k | k in account && k.0 == id :: k.1 := account[k].balance
  }

  /** Every holding belongs to an asset that exists. */
  ghost predicate HoldingsOfKnownAssets(asset: map<AssetId, AssetDetails>, account: map<AccountKey, AssetAccount>) {
    forall k :: k in account ==> k.0 in asset
  }

  /** Each asset's supply is the sum of its holders' balances. */
  ghost predicate SupplyConserved(asset: map<AssetId, AssetDetails>, account: map<AccountKey, AssetAccount>) {
    forall id {:trigger Sum(Holdings(account, id))} :: id in asset ==> asset[id].supply == Sum(Holdings(account, id))
  }

  lemma HoldingsAt(account: map<AccountKey, AssetAccount>, id: AssetId, who: AccountId)
    ensures ValueAt(Holdings(account, id), who) == BalanceAt(account, (id, who))
  {
  }

  /** Writing one holding changes only that asset's holdings, and only at that holder. */
  lemma HoldingsAfterWrite(account: map<AccountKey, AssetAccount>, key: AccountKey, entry: Option<AssetAccount>, id: AssetId)
    ensures key.0 != id ==> Holdings(WriteAccount(account, key, entry), id) == Holdings(account, id)
    ensures key.0 == id && entry.None? ==>
      Holdings(WriteAccount(account, key, entry), id) == Holdings(account, id) - {key.1}
    ensures key.0 == id && entry.Some? ==>
      Holdings(WriteAccount(account, key, entry), id) == Holdings(account, id)[key.1 := entry.value.balance]
  {
    if key.0 != id {
      HoldingsOfOtherAsset(account, key, entry, id);
    } else if entry.None? {
      HoldingsAfterRemove(account, key);
    } else {
      HoldingsAfterSet(account, key, entry.value);
    }
  }

  lemma HoldingsOfOtherAsset(account: map<AccountKey, AssetAccount>, key: AccountKey, entry: Option<AssetAccount>, id: AssetId)
    requires key.0 != id
    ensures Holdings(WriteAccount(account, key, entry), id) == Holdings(account, id)
  {
    assert Holdings(WriteAccount(account, key, entry), id).Keys == Holdings(account, id).Keys;
  }

  lemma HoldingsAfterRemove(account: map<AccountKey, AssetAccount>, key: AccountKey)
    ensures Holdings(account - {key}, key.0) == Holdings(account, key.0) - {key.1}
  {
    assert Holdings(account - {key}, key.0).Keys == Holdings(account, key.0).Keys - {key.1};
  }

  lemma HoldingsAfterSet(account: map<AccountKey, AssetAccount>, key: AccountKey, entry: AssetAccount)
    ensures Holdings(account[key := entry], key.0) == Holdings(account, key.0)[key.1 := entry.balance]
  {
    var before, after := Holdings(account, key.0), Holdings(account[key := entry], key.0);
    assert after.Keys == before.Keys + {key.1};
    forall w | w in after
      ensures after[w] == before[key.1 := entry.balance][w]
    {
      if w != key.1 {
        assert (key.0, w) in account;
      }
    }
  }

  /** Writing one holding moves its asset's total by the change in that holding. */
  lemma TotalAfterWrite(account: map<AccountKey, AssetAccount>, key: AccountKey, entry: Option<AssetAccount>)
    ensures Sum(Holdings(WriteAccount(account, key, entry), key.0))
      == Sum(Holdings(account, key.0)) - BalanceAt(account, key) + EntryBalance(entry)
  {
    var h := Holdings(account, key.0);
    HoldingsAfterWrite(account, key, entry, key.0);
    HoldingsAt(account, key.0, key.1);
    if entry.None? {
      if key.1 in h {
        SumRemove(h, key.1);
      } else {
        assert h - {key.1} == h;
      }
    } else {
      SumUpdate(h, key.1, entry.value.balance);
    }
  }

  /**
   * Writing one holding keeps supplies conserved when the asset's supply
   * moves by the same amount as that holding's balance.
   */
  lemma ConservedAfterWrite(
    asset: map<AssetId, AssetDetails>, account: map<AccountKey, AssetAccount>,
    key: AccountKey, entry: Option<AssetAccount>, d: AssetDetails)
    requires SupplyConserved(asset, account)
    requires key.0 in asset
    requires d.supply + BalanceAt(account, key) == asset[key.0].supply + EntryBalance(entry)
    ensures SupplyConserved(asset[key.0 := d], WriteAccount(account, key, entry))
  {
    var a := WriteAccount(account, key, entry);
    var asset' := asset[key.0 := d];
    forall id | id in asset'
      ensures asset'[id].supply == Sum(Holdings(a, id))
    {
      if id == key.0 {
        TotalAfterWrite(account, key, entry);
      } else {
        HoldingsAfterWrite(account, key, entry, id);
      }
    }
  }

  /** Changing an asset's record without touching its supply keeps supplies conserved. */
  lemma ConservedAfterDetailsEdit(
    asset: map<AssetId, AssetDetails>, account: map<AccountKey, AssetAccount>, id: AssetId, d: AssetDetails)
    requires SupplyConserved(asset, account)
    requires id in asset && d.supply == asset[id].supply
    ensures SupplyConserved(asset[id := d], account)
  {
  }

  /** An asset nobody holds has no holdings, so its supply must be 0. */
  lemma ConservedAfterInsert(
    asset: map<AssetId, AssetDetails>, account: map<AccountKey, AssetAccount>, id: AssetId, d: AssetDetails)
    requires SupplyConserved(asset, account)
    requires forall k :: k in account ==> k.0 != id
    requires d.supply == 0
    ensures SupplyConserved(asset[id := d], account)
  {
    assert Holdings(account, id) == map[];
  }

  /** A holding never exceeds its asset's supply while supplies are conserved. */
  lemma BalanceAtMostSupply(asset: map<AssetId, AssetDetails>, account: map<AccountKey, AssetAccount>, key: AccountKey)
    requires SupplyConserved(asset, account) && key.0 in asset
    ensures BalanceAt(account, key) <= asset[key.0].supply
  {
    HoldingsAt(account, key.0, key.1);
    ValueAtMostSum(Holdings(account, key.0), key.1);
  }

  /**
   * The amount a debit actually takes from `balance`: the requested amount
   * (capped by the balance when best effort is asked for), extended to the
   * whole balance when the remainder would fall below the minimum balance.
   */
  function DebitActual(balance: Balance, amount: Balance, bestEffort: bool, minBalance: Balance): (actual: Balance)
    requires bestEffort || amount <= balance
    ensures actual <= balance
    ensures actual == balance || balance - actual >= minBalance
    ensures actual == balance || actual == amount
    ensures !bestEffort ==> amount <= actual
    ensures bestEffort && amount >= balance ==> actual == balance
    ensures amount <= balance && balance - amount >= minBalance ==> actual == amount
    ensures amount <= balance && balance - amount < minBalance ==> actual == balance
  {
    var capped := if amount > balance then balance else amount;
    if balance - capped < minBalance then balance else capped
  }

  /** A holding after a debit: it is deleted once it falls below the minimum balance. */
  function AccountAfterDebit(a: AssetAccount, actual: Balance, minBalance: Balance): (entry: Option<AssetAccount>)
    requires actual <= a.balance
    ensures entry.None? <==> a.balance - actual < minBalance
    ensures entry.Some? ==> entry.value == a.(balance := a.balance - actual)
  {
    if a.balance - actual < minBalance then None else Some(a.(balance := a.balance - actual))
  }

  /** A holding after a credit: a new holding starts unfrozen. */
  function AccountAfterCredit(account: map<AccountKey, AssetAccount>, key: AccountKey, amount: Balance): (a: AssetAccount)
    requires BalanceAt(account, key) + amount <= U64_MAX
    ensures a.balance == BalanceAt(account, key) + amount
    ensures a.isFrozen == (key in account && account[key].isFrozen)
  {
    if key in account then account[key].(balance := account[key].balance + amount)
    else AssetAccount(amount, false)
  }

  /**
   * The burn-certificate update: a first burn records `amount`, a later one
   * adds `amount` to the total (saturating).
   */
  function AccumulateBurn(certificates: map<CertificateKey, Balance>, key: CertificateKey, amount: Balance)
    : (c: map<CertificateKey, Balance>)
    ensures c.Keys == certificates.Keys + {key}
    ensures key !in certificates ==> c[key] == amount
    ensures key in certificates ==> c[key] == SaturatingAdd(certificates[key], amount)
    ensures forall k :: k in certificates && k != key ==> c[k] == certificates[k]
  {
    if key in certificates then certificates[key := SaturatingAdd(certificates[key], amount)]
    else certificates[key := amount]
  }

  /** Certificates only grow: no recorded total decreases and the burnt key records at least `amount`. */
  lemma CertificatesNeverDecrease(certificates: map<CertificateKey, Balance>, key: CertificateKey, amount: Balance)
    ensures forall k :: k in certificates ==>
      k in AccumulateBurn(certificates, key, amount) && AccumulateBurn(certificates, key, amount)[k] >= certificates[k]
    ensures AccumulateBurn(certificates, key, amount)[key] >= amount
  {
  }

  /** Certificates record exact totals until the u64 ceiling is reached. */
  lemma CertificateIsExactBelowCeiling(certificates: map<CertificateKey, Balance>, key: CertificateKey, amount: Balance)
    requires key in certificates && certificates[key] + amount <= U64_MAX
    ensures AccumulateBurn(certificates, key, amount)[key] == certificates[key] + amount
  {
  }

  /** `StringLimit` bounds every metadata string. */
  predicate Bounded(s: seq<Byte>, limit: nat) {
    |s| <= limit
  }

  /** Every string of every stored metadata record is within `limit`. */
  ghost predicate MetadataBounded(metadata: map<AssetId, AssetMetadata>, limit: nat) {
    forall id :: id in metadata ==>
      Bounded(metadata[id].name, limit) && Bounded(metadata[id].symbol, limit) &&
      Bounded(metadata[id].url, limit) && Bounded(metadata[id].dataIpfs, limit)
  }
}

/**
 * The balance-changing transitions of the carbon-assets pallet on storage
 * values: crediting, debiting and moving balance, each with the checks that
 * precede it and a proof that it keeps every supply equal to the sum of its
 * holders' balances.
 */
module Ledger {
  import opened Dispatch
  import opened Sums
  import opened AssetStorage

  /** Every holding and every metadata record belongs to an asset that exists. */
  ghost predicate WellFormed(s: State) {
    HoldingsOfKnownAssets(s.asset, s.account) && (forall id :: id in s.metadata ==> id in s.asset)
  }

  ghost predicate Conserved(s: State) {
    SupplyConserved(s.asset, s.account)
  }

  /**
   * Why crediting `amount` of `id` to `who` fails, in the order the checks
   * run: unknown asset, supply or balance overflow, a new holding below the
   * minimum balance, and finally the issuer check of a mint.
   */
  function CreditFailure(s: State, id: AssetId, who: AccountId, amount: Balance, checkIssuer: Option<AccountId>)
    : (failure: Option<Error>)
    ensures id !in s.asset ==> failure == Some(Unknown)
    ensures failure.None? ==>
      id in s.asset && s.asset[id].supply + amount <= U64_MAX && BalanceAt(s.account, (id, who)) + amount <= U64_MAX
    ensures failure.None? && checkIssuer.Some? ==> checkIssuer.value == s.asset[id].issuer
    ensures failure.None? && (id, who) !in s.account ==> amount >= s.asset[id].minBalance
  {
    if id !in s.asset then Some(Unknown)
    else if s.asset[id].supply + amount > U64_MAX || BalanceAt(s.account, (id, who)) + amount > U64_MAX then Some(Overflow)
    else if (id, who) !in s.account && amount < s.asset[id].minBalance then Some(BelowMinimum)
    else if checkIssuer.Some? && checkIssuer.value != s.asset[id].issuer then Some(NoPermission)
    else None
  }

  /** The state after `amount` of `id` is credited to `who` and added to the supply. */
  function Credited(s: State, id: AssetId, who: AccountId, amount: Balance): (t: State)
    requires id in s.asset && s.asset[id].supply + amount <= U64_MAX
    requires BalanceAt(s.account, (id, who)) + amount <= U64_MAX
    ensures BalanceAt(t.account, (id, who)) == BalanceAt(s.account, (id, who)) + amount
    ensures forall k :: k != (id, who) ==> BalanceAt(t.account, k) == BalanceAt(s.account, k)
    ensures t.account.Keys == s.account.Keys + {(id, who)}
    ensures t.asset == s.asset[id := s.asset[id].(supply := s.asset[id].supply + amount)]
    ensures t == s.(asset := t.asset, account := t.account)
  {
    var d := s.asset[id];
    s.(asset := s.asset[id := d.(supply := SaturatingAdd(d.supply, amount))],
       account := s.account[(id, who) := AccountAfterCredit(s.account, (id, who), amount)])
  }

  lemma CreditedKeepsWellFormed(s: State, id: AssetId, who: AccountId, amount: Balance)
    requires id in s.asset && s.asset[id].supply + amount <= U64_MAX
    requires BalanceAt(s.account, (id, who)) + amount <= U64_MAX
    requires WellFormed(s)
    ensures WellFormed(Credited(s, id, who, amount))
  {
  }

  lemma CreditedKeepsConserved(s: State, id: AssetId, who: AccountId, amount: Balance)
    requires id in s.asset && s.asset[id].supply + amount <= U64_MAX
    requires BalanceAt(s.account, (id, who)) + amount <= U64_MAX
    requires Conserved(s)
    ensures Conserved(Credited(s, id, who, amount))
  {
    var d := s.asset[id];
    var entry := AccountAfterCredit(s.account, (id, who), amount);
    var t := Credited(s, id, who, amount);
    assert t.account == WriteAccount(s.account, (id, who), Some(entry));
    var raised := d.(supply := d.supply + amount);
    assert d.(supply := SaturatingAdd(d.supply, amount)) == raised;
    assert t.asset == s.asset[id := raised];
    assert EntryBalance(Some(entry)) == BalanceAt(s.account, (id, who)) + amount;
    ConservedAfterWrite(s.asset, s.account, (id, who), Some(entry), raised);
  }

  /**
   * Why debiting `amount` of `id` from `who` fails, in the order the checks
   * run: unknown asset, frozen asset, no holding, frozen holding, too little
   * balance (unless best effort), and the admin check of a privileged burn.
   */
  function DebitFailure(s: State, id: AssetId, who: AccountId, amount: Balance, bestEffort: bool, checkAdmin: Option<AccountId>)
    : (failure: Option<Error>)
    ensures id !in s.asset ==> failure == Some(Unknown)
    ensures id in s.asset && s.asset[id].isFrozen ==> failure == Some(Frozen)
    ensures failure.None? ==>
      id in s.asset && !s.asset[id].isFrozen && (id, who) in s.account && !s.account[(id, who)].isFrozen
    ensures failure.None? ==> bestEffort || amount <= s.account[(id, who)].balance
    ensures failure.None? && checkAdmin.Some? ==> checkAdmin.value == s.asset[id].admin
    ensures (!bestEffort && id in s.asset && !s.asset[id].isFrozen && (id, who) in s.account &&
      !s.account[(id, who)].isFrozen && amount > s.account[(id, who)].balance) ==> failure == Some(BalanceLow)
  {
    if id !in s.asset then Some(Unknown)
    else if s.asset[id].isFrozen then Some(Frozen)
    else if (id, who) !in s.account then Some(NoAccount)
    else if s.account[(id, who)].isFrozen then Some(Frozen)
    else if !bestEffort && amount > s.account[(id, who)].balance then Some(BalanceLow)
    else if checkAdmin.Some? && checkAdmin.value != s.asset[id].admin then Some(NoPermission)
    else None
  }

  /**
   * The state after `actual` of `id` is taken from `who` and from the supply
   * (saturating); a holding left below the minimum balance is deleted.
   */
  function Debited(s: State, id: AssetId, who: AccountId, actual: Balance): (t: State)
    requires id in s.asset && (id, who) in s.account && actual <= s.account[(id, who)].balance
    ensures s.account[(id, who)].balance - actual < s.asset[id].minBalance ==>
      (id, who) !in t.account
    ensures s.account[(id, who)].balance - actual >= s.asset[id].minBalance ==>
      (id, who) in t.account && t.account[(id, who)] == s.account[(id, who)].(balance := s.account[(id, who)].balance - actual)
    ensures forall k :: k != (id, who) ==> (k in t.account <==> k in s.account)
    ensures forall k :: k != (id, who) && k in s.account ==> t.account[k] == s.account[k]
    ensures t.asset == s.asset[id := s.asset[id].(supply := SaturatingSub(s.asset[id].supply, actual))]
    ensures t == s.(asset := t.asset, account := t.account)
  {
    var d := s.asset[id];
    s.(asset := s.asset[id := d.(supply := SaturatingSub(d.supply, actual))],
       account := WriteAccount(s.account, (id, who), AccountAfterDebit(s.account[(id, who)], actual, d.minBalance)))
  }

  lemma DebitedKeepsWellFormed(s: State, id: AssetId, who: AccountId, actual: Balance)
    requires id in s.asset && (id, who) in s.account && actual <= s.account[(id, who)].balance
    requires WellFormed(s)
    ensures WellFormed(Debited(s, id, who, actual))
  {
  }

  /** A debit sized by DebitActual leaves no dust behind, so supplies stay conserved. */
  lemma DebitedKeepsConserved(s: State, id: AssetId, who: AccountId, amount: Balance, bestEffort: bool)
    requires id in s.asset && (id, who) in s.account
    requires bestEffort || amount <= s.account[(id, who)].balance
    requires Conserved(s)
    ensures Conserved(Debited(s, id, who,
      DebitActual(s.account[(id, who)].balance, amount, bestEffort, s.asset[id].minBalance)))
  {
    var d := s.asset[id];
    var a := s.account[(id, who)];
    var actual := DebitActual(a.balance, amount, bestEffort, d.minBalance);
    var entry := AccountAfterDebit(a, actual, d.minBalance);
    var t := Debited(s, id, who, actual);
    assert t.account == WriteAccount(s.account, (id, who), entry);
    BalanceAtMostSupply(s.asset, s.account, (id, who));
    assert entry.None? ==> actual == a.balance;
    assert t.asset == s.asset[id := d.(supply := d.supply - actual)];
    ConservedAfterWrite(s.asset, s.account, (id, who), entry, d.(supply := d.supply - actual));
  }

  /**
   * Why moving `amount` of `id` from `source` to `dest` fails: the debit
   * checks on the source, then overflow or a too-small new holding at the
   * destination, then the admin check of a forced transfer.
   */
  function TransferFailure(s: State, id: AssetId, source: AccountId, dest: AccountId, amount: Balance, checkAdmin: Option<AccountId>)
    : (failure: Option<Error>)
    ensures DebitFailure(s, id, source, amount, false, None).Some? ==> failure == DebitFailure(s, id, source, amount, false, None)
    ensures failure.None? ==> DebitFailure(s, id, source, amount, false, checkAdmin).None?
    ensures failure.None? ==>
      BalanceAt(s.account, (id, dest))
        + DebitActual(s.account[(id, source)].balance, amount, false, s.asset[id].minBalance) <= U64_MAX
  {
    var debit := DebitFailure(s, id, source, amount, false, None);
    if debit.Some? then debit
    else
      var actual := DebitActual(s.account[(id, source)].balance, amount, false, s.asset[id].minBalance);
      if BalanceAt(s.account, (id, dest)) + actual > U64_MAX then Some(Overflow)
      else if (id, dest) !in s.account && actual < s.asset[id].minBalance then Some(BelowMinimum)
      else if checkAdmin.Some? && checkAdmin.value != s.asset[id].admin then Some(NoPermission)
      else None
  }

  /** The state after `actual` of `id` moves from `source` to a different `dest`. */
  function Transferred(s: State, id: AssetId, source: AccountId, dest: AccountId, actual: Balance): (t: State)
    requires source != dest && id in s.asset && (id, source) in s.account
    requires actual <= s.account[(id, source)].balance
    requires BalanceAt(s.account, (id, dest)) + actual <= U64_MAX
    ensures BalanceAt(t.account, (id, dest)) == BalanceAt(s.account, (id, dest)) + actual
    ensures s.account[(id, source)].balance - actual >= s.asset[id].minBalance ==>
      BalanceAt(t.account, (id, source)) == s.account[(id, source)].balance - actual
    ensures s.account[(id, source)].balance - actual < s.asset[id].minBalance ==> (id, source) !in t.account
    ensures forall k :: k != (id, source) && k != (id, dest) ==> BalanceAt(t.account, k) == BalanceAt(s.account, k)
    ensures t == s.(account := t.account)
  {
    var debited := WriteAccount(s.account, (id, source),
      AccountAfterDebit(s.account[(id, source)], actual, s.asset[id].minBalance));
    s.(account := debited[(id, dest) := AccountAfterCredit(s.account, (id, dest), actual)])
  }

  lemma TransferredKeepsWellFormed(s: State, id: AssetId, source: AccountId, dest: AccountId, actual: Balance)
    requires source != dest && id in s.asset && (id, source) in s.account
    requires actual <= s.account[(id, source)].balance
    requires BalanceAt(s.account, (id, dest)) + actual <= U64_MAX
    requires WellFormed(s)
    ensures WellFormed(Transferred(s, id, source, dest, actual))
  {
  }

  /** A transfer is a write of the source holding followed by a write of the destination holding. */
  lemma TransferredIsTwoWrites(s: State, id: AssetId, source: AccountId, dest: AccountId, actual: Balance)
    requires source != dest && id in s.asset && (id, source) in s.account
    requires actual <= s.account[(id, source)].balance
    requires BalanceAt(s.account, (id, dest)) + actual <= U64_MAX
    ensures var debited := WriteAccount(s.account, (id, source),
              AccountAfterDebit(s.account[(id, source)], actual, s.asset[id].minBalance));
      BalanceAt(debited, (id, dest)) == BalanceAt(s.account, (id, dest)) &&
      Transferred(s, id, source, dest, actual).account
        == WriteAccount(debited, (id, dest), Some(AccountAfterCredit(debited, (id, dest), actual)))
  {
    var debited := WriteAccount(s.account, (id, source),
      AccountAfterDebit(s.account[(id, source)], actual, s.asset[id].minBalance));
    assert (id, dest) in debited <==> (id, dest) in s.account;
    assert (id, dest) in debited ==> debited[(id, dest)] == s.account[(id, dest)];
  }

  /** Restoring a map entry to its old value gives back the map. */
  lemma RestoreEntry<K, V>(m: map<K, V>, k: K, v: V)
    requires k in m
    ensures m[k := v][k := m[k]] == m
  {
  }

  /** Taking `actual` from a holding, and from its asset's supply, keeps supplies conserved. */
  lemma DebitWriteConserved(
    asset: map<AssetId, AssetDetails>, account: map<AccountKey, AssetAccount>, key: AccountKey, actual: Balance)
    requires SupplyConserved(asset, account)
    requires key.0 in asset && key in account && actual <= account[key].balance && actual <= asset[key.0].supply
    requires actual == account[key].balance || account[key].balance - actual >= asset[key.0].minBalance
    ensures SupplyConserved(asset[key.0 := asset[key.0].(supply := asset[key.0].supply - actual)],
                            WriteAccount(account, key, AccountAfterDebit(account[key], actual, asset[key.0].minBalance)))
  {
    var d := asset[key.0];
    var entry := AccountAfterDebit(account[key], actual, d.minBalance);
    assert EntryBalance(entry) == account[key].balance - actual;
    ConservedAfterWrite(asset, account, key, entry, d.(supply := d.supply - actual));
  }

  /**
   * Moving `actual` from one holding of an asset to another, the source
   * left empty or at the minimum balance, keeps supplies conserved.
   */
  lemma TwoWritesConserved(
    asset: map<AssetId, AssetDetails>, account: map<AccountKey, AssetAccount>, from: AccountKey, to: AccountKey, actual: Balance)
    requires SupplyConserved(asset, account)
    requires from.0 == to.0 && from != to && from.0 in asset && from in account
    requires actual <= account[from].balance && BalanceAt(account, to) + actual <= U64_MAX
    requires actual == account[from].balance || account[from].balance - actual >= asset[from.0].minBalance
    ensures var debited := WriteAccount(account, from, AccountAfterDebit(account[from], actual, asset[from.0].minBalance));
      BalanceAt(debited, to) + actual <= U64_MAX &&
      SupplyConserved(asset, WriteAccount(debited, to, Some(AccountAfterCredit(debited, to, actual))))
  {
    var d := asset[from.0];
    var debited := WriteAccount(account, from, AccountAfterDebit(account[from], actual, d.minBalance));
    BalanceAtMostSupply(asset, account, from);
    DebitWriteConserved(asset, account, from, actual);
    var lowered := asset[from.0 := d.(supply := d.supply - actual)];
    assert BalanceAt(debited, to) == BalanceAt(account, to);
    var credit := AccountAfterCredit(debited, to, actual);
    ConservedAfterWrite(lowered, debited, to, Some(credit), d);
    RestoreEntry(asset, from.0, d.(supply := d.supply - actual));
  }

  /** A transfer that leaves the source either empty or at the minimum balance keeps supplies conserved. */
  lemma TransferredWithoutDustKeepsConserved(s: State, id: AssetId, source: AccountId, dest: AccountId, actual: Balance)
    requires source != dest && id in s.asset && (id, source) in s.account
    requires actual <= s.account[(id, source)].balance
    requires BalanceAt(s.account, (id, dest)) + actual <= U64_MAX
    requires actual == s.account[(id, source)].balance || s.account[(id, source)].balance - actual >= s.asset[id].minBalance
    requires Conserved(s)
    ensures Conserved(Transferred(s, id, source, dest, actual))
  {
    TransferredIsTwoWrites(s, id, source, dest, actual);
    TwoWritesConserved(s.asset, s.account, (id, source), (id, dest), actual);
  }

  /** A transfer sized by DebitActual moves balance without changing any total. */
  lemma TransferredKeepsConserved(s: State, id: AssetId, source: AccountId, dest: AccountId, amount: Balance)
    requires source != dest && id in s.asset && (id, source) in s.account
    requires amount <= s.account[(id, source)].balance
    requires BalanceAt(s.account, (id, dest))
      + DebitActual(s.account[(id, source)].balance, amount, false, s.asset[id].minBalance) <= U64_MAX
    requires Conserved(s)
    ensures Conserved(Transferred(s, id, source, dest,
      DebitActual(s.account[(id, source)].balance, amount, false, s.asset[id].minBalance)))
  {
    var actual := DebitActual(s.account[(id, source)].balance, amount, false, s.asset[id].minBalance);
    TransferredWithoutDustKeepsConserved(s, id, source, dest, actual);
  }

  /**
   * Rewriting an existing asset's record with its supply unchanged keeps
   * both invariants: the asset keys and every total stay as they were.
   */
  lemma DetailsEditKeepsInvariants(s: State, id: AssetId, d: AssetDetails)
    requires id in s.asset && d.supply == s.asset[id].supply
    ensures WellFormed(s) ==> WellFormed(s.(asset := s.asset[id := d]))
    ensures Conserved(s) ==> Conserved(s.(asset := s.asset[id := d]))
  {
    if Conserved(s) {
      ConservedAfterDetailsEdit(s.asset, s.account, id, d);
    }
  }

  /** Inserting a fresh asset with nothing issued keeps both invariants. */
  lemma InsertKeepsInvariants(s: State, id: AssetId, d: AssetDetails)
    requires WellFormed(s) && id !in s.asset && d.supply == 0
    ensures WellFormed(s.(asset := s.asset[id := d]))
    ensures Conserved(s) ==> Conserved(s.(asset := s.asset[id := d]))
  {
    if Conserved(s) {
      ConservedAfterInsert(s.asset, s.account, id, d);
    }
  }

  // ---------------------------------------------------------------------
  // Approvals.

  /** The approval stored under `key`, or the empty default. */
  function ApprovalAt(approvals: map<ApprovalKey, Approval>, key: ApprovalKey): (a: Approval)
    ensures key in approvals ==> a == approvals[key]
    ensures key !in approvals ==> a == Approval(0, 0)
  {
    if key in approvals then approvals[key] else Approval(0, 0)
  }

  /**
   * The state after approving `amount` more under `key`: approvals are
   * additive (saturating at the balance ceiling), the deposit is raised to
   * at least `deposit`, and a new approval is counted in its asset.
   */
  function Approved(s: State, key: ApprovalKey, amount: Balance, deposit: Balance): (t: State)
    requires key.0 in s.asset
    ensures key in t.approvals && t.approvals - {key} == s.approvals - {key}
    ensures ApprovalAt(s.approvals, key).amount + amount <= U64_MAX ==>
      t.approvals[key].amount == ApprovalAt(s.approvals, key).amount + amount
    ensures ApprovalAt(s.approvals, key).amount + amount > U64_MAX ==> t.approvals[key].amount == U64_MAX
    ensures ApprovalAt(s.approvals, key).amount <= t.approvals[key].amount
    ensures t.approvals[key].deposit == ApprovalAt(s.approvals, key).deposit || t.approvals[key].deposit == deposit
    ensures deposit <= t.approvals[key].deposit && ApprovalAt(s.approvals, key).deposit <= t.approvals[key].deposit
    ensures key.0 in t.asset && t.asset - {key.0} == s.asset - {key.0}
    ensures key in s.approvals ==> t.asset[key.0] == s.asset[key.0]
    ensures key !in s.approvals ==>
      t.asset[key.0] == s.asset[key.0].(approvals := SaturatingInc(s.asset[key.0].approvals))
    ensures t == s.(asset := t.asset, approvals := t.approvals)
  {
    var prior := ApprovalAt(s.approvals, key);
    var d := s.asset[key.0];
    s.(approvals := s.approvals[key := Approval(SaturatingAdd(prior.amount, amount),
                                                if prior.deposit < deposit then deposit else prior.deposit)],
       asset := s.asset[key.0 := if key in s.approvals then d else d.(approvals := SaturatingInc(d.approvals))])
  }

  /**
   * The state after `amount` of the approval under `key` is used: the
   * approval shrinks by `amount`, and once nothing is left it is removed and
   * uncounted from its asset (when that asset still exists).
   */
  function Spent(s: State, key: ApprovalKey, amount: Balance): (t: State)
    requires key in s.approvals && amount <= s.approvals[key].amount
    ensures t.approvals - {key} == s.approvals - {key}
    ensures amount < s.approvals[key].amount ==>
      key in t.approvals && t.approvals[key] == s.approvals[key].(amount := s.approvals[key].amount - amount) &&
      t.asset == s.asset
    ensures amount == s.approvals[key].amount ==> key !in t.approvals
    ensures amount == s.approvals[key].amount && key.0 in s.asset ==>
      t.asset == s.asset[key.0 := s.asset[key.0].(approvals := SaturatingDec(s.asset[key.0].approvals))]
    ensures key.0 !in s.asset ==> t.asset == s.asset
    ensures t == s.(asset := t.asset, approvals := t.approvals)
  {
    var approved := s.approvals[key];
    if amount < approved.amount then
      s.(approvals := s.approvals[key := approved.(amount := approved.amount - amount)])
    else if key.0 in s.asset then
      s.(approvals := s.approvals - {key},
         asset := s.asset[key.0 := s.asset[key.0].(approvals := SaturatingDec(s.asset[key.0].approvals))])
    else
      s.(approvals := s.approvals - {key})
  }

  /** The state after the approval under `key` is cancelled outright. */
  function Cancelled(s: State, key: ApprovalKey): (t: State)
    requires key.0 in s.asset && key in s.approvals
    ensures key !in t.approvals && t.approvals == s.approvals - {key}
    ensures t.asset == s.asset[key.0 := s.asset[key.0].(approvals := SaturatingDec(s.asset[key.0].approvals))]
    ensures t == s.(asset := t.asset, approvals := t.approvals)
  {
    s.(approvals := s.approvals - {key},
       asset := s.asset[key.0 := s.asset[key.0].(approvals := SaturatingDec(s.asset[key.0].approvals))])
  }

  /** Using up an approval entirely has the same effect as cancelling it. */
  lemma SpendingAllCancels(s: State, key: ApprovalKey)
    requires key.0 in s.asset && key in s.approvals
    ensures Spent(s, key, s.approvals[key].amount) == Cancelled(s, key)
  {
  }

  /** Approving keeps both invariants: no asset appears or changes its supply. */
  lemma ApprovedKeepsInvariants(s: State, key: ApprovalKey, amount: Balance, deposit: Balance)
    requires key.0 in s.asset
    ensures WellFormed(s) ==> WellFormed(Approved(s, key, amount, deposit))
    ensures Conserved(s) ==> Conserved(Approved(s, key, amount, deposit))
  {
    var t := Approved(s, key, amount, deposit);
    DetailsEditKeepsInvariants(s, key.0, t.asset[key.0]);
    assert t.asset == s.asset[key.0 := t.asset[key.0]];
  }

  /** Spending an approval leaves every other approval as it was. */
  lemma SpentKeepsOtherApprovals(s: State, key: ApprovalKey, amount: Balance)
    requires key in s.approvals && amount <= s.approvals[key].amount
    ensures forall k :: k != key ==> ApprovalAt(Spent(s, key, amount).approvals, k) == ApprovalAt(s.approvals, k)
  {
    var t := Spent(s, key, amount);
    forall k | k != key
      ensures ApprovalAt(t.approvals, k) == ApprovalAt(s.approvals, k)
    {
      assert k in t.approvals <==> k in t.approvals - {key};
      assert k in s.approvals <==> k in s.approvals - {key};
    }
  }

  /** Spending an approval keeps both invariants. */
  lemma SpentKeepsInvariants(s: State, key: ApprovalKey, amount: Balance)
    requires key in s.approvals && amount <= s.approvals[key].amount
    ensures WellFormed(s) ==> WellFormed(Spent(s, key, amount))
    ensures Conserved(s) ==> Conserved(Spent(s, key, amount))
  {
    if key.0 in s.asset {
      var d := s.asset[key.0];
      DetailsEditKeepsInvariants(s, key.0, d.(approvals := SaturatingDec(d.approvals)));
    }
  }

  /** Cancelling an approval keeps both invariants. */
  lemma CancelledKeepsInvariants(s: State, key: ApprovalKey)
    requires key.0 in s.asset && key in s.approvals
    ensures WellFormed(s) ==> WellFormed(Cancelled(s, key))
    ensures Conserved(s) ==> Conserved(Cancelled(s, key))
  {
    var d := s.asset[key.0];
    DetailsEditKeepsInvariants(s, key.0, d.(approvals := SaturatingDec(d.approvals)));
  }

  /** Freezing or thawing one holding leaves every balance, and so both invariants, as they were. */
  lemma FreezeFlagKeepsInvariants(s: State, key: AccountKey, frozen: bool)
    requires key in s.account
    ensures WellFormed(s) ==> WellFormed(s.(account := s.account[key := s.account[key].(isFrozen := frozen)]))
    ensures Conserved(s) ==> Conserved(s.(account := s.account[key := s.account[key].(isFrozen := frozen)]))
  {
    var account := s.account[key := s.account[key].(isFrozen := frozen)];
    assert account.Keys == s.account.Keys;
    forall id | id in s.asset
      ensures Holdings(account, id) == Holdings(s.account, id)
    {
      assert Holdings(account, id).Keys == Holdings(s.account, id).Keys;
    }
  }
}
