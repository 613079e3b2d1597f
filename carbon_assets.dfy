/**
 * The carbon-assets pallet: fungible carbon-credit assets created by any
 * signed account, minted only by the custodian, burnt by their holders or by
 * the admin with a burn certificate recorded, frozen and thawed by their
 * freezer and admin, and described by bounded metadata.
 */
module CarbonAssets {
  import opened Dispatch
  import opened AssetStorage
  import opened Ledger

  /** The genesis configuration: a custodian, assets, their metadata and initial balances. */
  datatype GenesisConfig = GenesisConfig(
    custodian: Option<AccountId>,
    assets: seq<(AssetId, AccountId, bool, Balance)>,
    metadata: seq<(AssetId, seq<Byte>, seq<Byte>, Byte)>,
    accounts: seq<(AssetId, AccountId, Balance)>)

  /** A new asset governed entirely by `owner`, with nothing issued yet. */
  function NewAssetDetails(owner: AccountId, isSufficient: bool, minBalance: Balance): (d: AssetDetails)
    ensures d.owner == owner && d.issuer == owner && d.admin == owner && d.freezer == owner
    ensures d.supply == 0 && d.deposit == 0 && d.minBalance == minBalance && d.isSufficient == isSufficient
    ensures d.accounts == 0 && d.sufficients == 0 && d.approvals == 0 && !d.isFrozen
  {
    AssetDetails(owner, owner, owner, owner, 0, 0, minBalance, isSufficient, 0, 0, 0, false)
  }

  /** The decimals recorded for every asset made by `create`. */
  const CREATED_DECIMALS: Byte := 9

  /**
   * A carbon asset created by `owner`: the custodian takes the issuer, admin
   * and freezer roles, the creation deposit is recorded and the minimum
   * balance is 1.
   */
  function CarbonAssetDetails(owner: AccountId, custodian: AccountId, deposit: Balance): (d: AssetDetails)
    ensures d.owner == owner && d.issuer == custodian && d.admin == custodian && d.freezer == custodian
    ensures d.supply == 0 && d.deposit == deposit && d.minBalance == 1 && !d.isSufficient
    ensures d.accounts == 0 && d.sufficients == 0 && d.approvals == 0 && !d.isFrozen
  {
    AssetDetails(owner, custodian, custodian, custodian, 0, deposit, 1, false, 0, 0, 0, false)
  }

  // ---------------------------------------------------------------------
  // Genesis.

  type GenesisAsset = (AssetId, AccountId, bool, Balance)
  type GenesisMetadata = (AssetId, seq<Byte>, seq<Byte>, Byte)
  type GenesisAccount = (AssetId, AccountId, Balance)

  /**
   * The assets of the genesis configuration inserted one by one into `m`;
   * None when an id is already taken or a minimum balance is 0, which
   * aborts the genesis build.
   */
  function GenesisAssetsFrom(m: map<AssetId, AssetDetails>, assets: seq<GenesisAsset>): Option<map<AssetId, AssetDetails>>
    decreases |assets|
  {
    if assets == [] then Some(m)
    else
      var (id, owner, isSufficient, minBalance) := assets[0];
      if id in m || minBalance == 0 then None
      else GenesisAssetsFrom(m[id := NewAssetDetails(owner, isSufficient, minBalance)], assets[1..])
  }

  /** No two entries of the asset list share an id. */
  ghost predicate DistinctAssetIds(assets: seq<GenesisAsset>) {
    forall i, j :: 0 <= i < j < |assets| ==> assets[i].0 != assets[j].0
  }

  /** The asset insertions succeed exactly when every id is fresh and distinct and every minimum balance positive. */
  lemma {:induction false} GenesisAssetsSucceedIff(m: map<AssetId, AssetDetails>, assets: seq<GenesisAsset>)
    ensures GenesisAssetsFrom(m, assets).Some? <==>
      DistinctAssetIds(assets) && forall i :: 0 <= i < |assets| ==> assets[i].0 !in m && assets[i].3 > 0
    decreases |assets|
  {
    if assets != [] {
      var (id, owner, isSufficient, minBalance) := assets[0];
      var m' := m[id := NewAssetDetails(owner, isSufficient, minBalance)];
      GenesisAssetsSucceedIff(m', assets[1..]);
      forall i | 0 < i < |assets|
        ensures assets[i] == assets[1..][i - 1]
      {
      }
    }
  }

  /** The ids the asset list names. */
  ghost function GenesisAssetIds(assets: seq<GenesisAsset>): set<AssetId> {
    set i | 0 <= i < |assets| :: assets[i].0
  }

  /** After the asset insertions, each listed asset has its configured owner and minimum balance, and nothing else changed. */
  lemma {:induction false} GenesisAssetsContents(m: map<AssetId, AssetDetails>, assets: seq<GenesisAsset>)
    requires GenesisAssetsFrom(m, assets).Some?
    ensures GenesisAssetsFrom(m, assets).value.Keys == m.Keys + GenesisAssetIds(assets)
    ensures forall id :: id in m ==> GenesisAssetsFrom(m, assets).value[id] == m[id]
    ensures forall i :: 0 <= i < |assets| ==>
      GenesisAssetsFrom(m, assets).value[assets[i].0] == NewAssetDetails(assets[i].1, assets[i].2, assets[i].3)
    decreases |assets|
  {
    if assets != [] {
      var (id, owner, isSufficient, minBalance) := assets[0];
      var m' := m[id := NewAssetDetails(owner, isSufficient, minBalance)];
      GenesisAssetsContents(m', assets[1..]);
      var r := GenesisAssetsFrom(m, assets).value;
      assert r == GenesisAssetsFrom(m', assets[1..]).value;
      assert GenesisAssetIds(assets) == {id} + GenesisAssetIds(assets[1..]) by {
        forall x | x in GenesisAssetIds(assets)
          ensures x in {id} + GenesisAssetIds(assets[1..])
        {
          var i :| 0 <= i < |assets| && assets[i].0 == x;
          if i > 0 {
            assert assets[1..][i - 1].0 == x;
          }
        }
      }
      forall i | 0 <= i < |assets|
        ensures r[assets[i].0] == NewAssetDetails(assets[i].1, assets[i].2, assets[i].3)
      {
        if i > 0 {
          assert assets[i] == assets[1..][i - 1];
        }
      }
    }
  }

  /** The metadata record genesis writes: no deposit, empty url and IPFS link, not frozen. */
  function GenesisMetadataRecord(name: seq<Byte>, symbol: seq<Byte>, decimals: Byte): AssetMetadata {
    AssetMetadata(0, name, symbol, [], [], decimals, false)
  }

  /**
   * The metadata of the genesis configuration written one by one into `m`,
   * a later entry replacing an earlier one with the same id; None when an
   * entry names an asset outside `known` or its name or symbol exceeds
   * `limit`, which aborts the genesis build.
   */
  function GenesisMetadataFrom(known: set<AssetId>, limit: nat, m: map<AssetId, AssetMetadata>, metadata: seq<GenesisMetadata>)
    : Option<map<AssetId, AssetMetadata>>
    decreases |metadata|
  {
    if metadata == [] then Some(m)
    else
      var (id, name, symbol, decimals) := metadata[0];
      if id !in known || !Bounded(name, limit) || !Bounded(symbol, limit) then None
      else GenesisMetadataFrom(known, limit, m[id := GenesisMetadataRecord(name, symbol, decimals)], metadata[1..])
  }

  /** A metadata entry genesis accepts: a known asset, and a name and symbol within the limit. */
  predicate AcceptedMetadata(known: set<AssetId>, limit: nat, entry: GenesisMetadata) {
    entry.0 in known && Bounded(entry.1, limit) && Bounded(entry.2, limit)
  }

  /** The metadata writes succeed exactly when every entry is accepted. */
  lemma {:induction false} GenesisMetadataSucceedsIff(known: set<AssetId>, limit: nat, m: map<AssetId, AssetMetadata>,
                                                       metadata: seq<GenesisMetadata>)
    ensures GenesisMetadataFrom(known, limit, m, metadata).Some? <==>
      forall i :: 0 <= i < |metadata| ==> AcceptedMetadata(known, limit, metadata[i])
    decreases |metadata|
  {
    if metadata != [] {
      var (id, name, symbol, decimals) := metadata[0];
      GenesisMetadataSucceedsIff(known, limit, m[id := GenesisMetadataRecord(name, symbol, decimals)], metadata[1..]);
      forall i | 0 < i < |metadata|
        ensures metadata[i] == metadata[1..][i - 1]
      {
      }
    }
  }

  /** The metadata writes add records for known assets only, and records whose strings are within `limit`. */
  lemma {:induction false} GenesisMetadataKeys(known: set<AssetId>, limit: nat, m: map<AssetId, AssetMetadata>,
                                                metadata: seq<GenesisMetadata>)
    requires GenesisMetadataFrom(known, limit, m, metadata).Some?
    ensures GenesisMetadataFrom(known, limit, m, metadata).value.Keys - m.Keys <= known
    ensures MetadataBounded(m, limit) ==> MetadataBounded(GenesisMetadataFrom(known, limit, m, metadata).value, limit)
    decreases |metadata|
  {
    if metadata != [] {
      var (id, name, symbol, decimals) := metadata[0];
      GenesisMetadataKeys(known, limit, m[id := GenesisMetadataRecord(name, symbol, decimals)], metadata[1..]);
    }
  }

  /** The metadata of an asset the list does not name is left as it was. */
  lemma {:induction false} GenesisMetadataKeepsOthers(known: set<AssetId>, limit: nat, m: map<AssetId, AssetMetadata>,
                                                       metadata: seq<GenesisMetadata>, id: AssetId)
    requires GenesisMetadataFrom(known, limit, m, metadata).Some?
    requires id in m && forall i :: 0 <= i < |metadata| ==> metadata[i].0 != id
    ensures id in GenesisMetadataFrom(known, limit, m, metadata).value
    ensures GenesisMetadataFrom(known, limit, m, metadata).value[id] == m[id]
    decreases |metadata|
  {
    if metadata != [] {
      var (x, name, symbol, decimals) := metadata[0];
      forall i | 0 <= i < |metadata[1..]|
        ensures metadata[1..][i].0 != id
      {
        assert metadata[1..][i] == metadata[i + 1];
      }
      GenesisMetadataKeepsOthers(known, limit, m[x := GenesisMetadataRecord(name, symbol, decimals)], metadata[1..], id);
    }
  }

  /** Each asset named in the list carries the record of its last entry. */
  lemma {:induction false} GenesisMetadataLastWins(known: set<AssetId>, limit: nat, m: map<AssetId, AssetMetadata>,
                                                    metadata: seq<GenesisMetadata>, i: nat)
    requires GenesisMetadataFrom(known, limit, m, metadata).Some?
    requires i < |metadata| && forall j :: i < j < |metadata| ==> metadata[j].0 != metadata[i].0
    ensures metadata[i].0 in GenesisMetadataFrom(known, limit, m, metadata).value
    ensures GenesisMetadataFrom(known, limit, m, metadata).value[metadata[i].0] ==
      GenesisMetadataRecord(metadata[i].1, metadata[i].2, metadata[i].3)
    decreases |metadata|
  {
    var (x, name, symbol, decimals) := metadata[0];
    var m' := m[x := GenesisMetadataRecord(name, symbol, decimals)];
    if i > 0 {
      assert metadata[i] == metadata[1..][i - 1];
      forall j | i - 1 < j < |metadata[1..]|
        ensures metadata[1..][j].0 != metadata[1..][i - 1].0
      {
        assert metadata[1..][j] == metadata[j + 1];
      }
      GenesisMetadataLastWins(known, limit, m', metadata[1..], i - 1);
    } else {
      forall j | 0 <= j < |metadata[1..]|
        ensures metadata[1..][j].0 != x
      {
        assert metadata[1..][j] == metadata[j + 1];
      }
      GenesisMetadataKeepsOthers(known, limit, m', metadata[1..], x);
    }
  }

  /** One genesis balance: nothing for 0, otherwise a credit that must succeed without an issuer check. */
  function GenesisCredit(s: State, entry: GenesisAccount): Option<State> {
    var (id, who, amount) := entry;
    if amount == 0 then Some(s)
    else if CreditFailure(s, id, who, amount, None).Some? then None
    else Some(Credited(s, id, who, amount))
  }

  /** The genesis balances credited one by one to `s`; None when a credit fails, which aborts the genesis build. */
  function GenesisAccountsFrom(s: State, accounts: seq<GenesisAccount>): Option<State>
    decreases |accounts|
  {
    if accounts == [] then Some(s)
    else
      match GenesisCredit(s, accounts[0])
      case None => None
      case Some(t) => GenesisAccountsFrom(t, accounts[1..])
  }

  /** The total the genesis balances assign to asset `id`. */
  function GenesisAmountOf(accounts: seq<GenesisAccount>, id: AssetId): nat
    decreases |accounts|
  {
    if accounts == [] then 0
    else (if accounts[0].0 == id then accounts[0].2 else 0) + GenesisAmountOf(accounts[1..], id)
  }

  /** The total the genesis balances assign to the holding `key`. */
  function GenesisAmountAt(accounts: seq<GenesisAccount>, key: AccountKey): nat
    decreases |accounts|
  {
    if accounts == [] then 0
    else (if (accounts[0].0, accounts[0].1) == key then accounts[0].2 else 0) + GenesisAmountAt(accounts[1..], key)
  }

  /** Crediting the genesis balances keeps both invariants. */
  lemma {:induction false} GenesisAccountsKeepInvariants(s: State, accounts: seq<GenesisAccount>)
    requires GenesisAccountsFrom(s, accounts).Some?
    ensures WellFormed(s) ==> WellFormed(GenesisAccountsFrom(s, accounts).value)
    ensures Conserved(s) ==> Conserved(GenesisAccountsFrom(s, accounts).value)
    decreases |accounts|
  {
    if accounts != [] {
      var (id, who, amount) := accounts[0];
      if amount > 0 {
        if WellFormed(s) {
          CreditedKeepsWellFormed(s, id, who, amount);
        }
        if Conserved(s) {
          CreditedKeepsConserved(s, id, who, amount);
        }
      }
      GenesisAccountsKeepInvariants(GenesisCredit(s, accounts[0]).value, accounts[1..]);
    }
  }

  /**
   * Crediting the genesis balances raises each asset's supply by exactly the
   * amounts listed for it and changes nothing else about the assets.
   */
  lemma {:induction false} GenesisAccountsSupply(s: State, accounts: seq<GenesisAccount>)
    requires GenesisAccountsFrom(s, accounts).Some?
    ensures GenesisAccountsFrom(s, accounts).value.asset.Keys == s.asset.Keys
    ensures forall id :: id in s.asset ==>
      GenesisAccountsFrom(s, accounts).value.asset[id].supply == s.asset[id].supply + GenesisAmountOf(accounts, id) &&
      GenesisAccountsFrom(s, accounts).value.asset[id] ==
        s.asset[id].(supply := GenesisAccountsFrom(s, accounts).value.asset[id].supply)
    ensures GenesisAccountsFrom(s, accounts).value ==
      s.(asset := GenesisAccountsFrom(s, accounts).value.asset, account := GenesisAccountsFrom(s, accounts).value.account)
    decreases |accounts|
  {
    if accounts != [] {
      GenesisAccountsSupply(GenesisCredit(s, accounts[0]).value, accounts[1..]);
    }
  }

  /** Crediting the genesis balances raises each holding by exactly the amounts listed for it. */
  lemma {:induction false} GenesisAccountsBalances(s: State, accounts: seq<GenesisAccount>, key: AccountKey)
    requires GenesisAccountsFrom(s, accounts).Some?
    ensures BalanceAt(GenesisAccountsFrom(s, accounts).value.account, key) == BalanceAt(s.account, key) + GenesisAmountAt(accounts, key)
    decreases |accounts|
  {
    if accounts != [] {
      GenesisAccountsBalances(GenesisCredit(s, accounts[0]).value, accounts[1..], key);
    }
  }

  /**
   * The state genesis builds from `config` in an empty pallet whose names and
   * symbols are bounded by `limit`: the custodian, then the assets, then their
   * metadata, then the balances; None when the build aborts.
   */
  function Genesis(config: GenesisConfig, limit: nat): Option<State> {
    match GenesisAssetsFrom(map[], config.assets)
    case None => None
    case Some(assets) =>
      match GenesisMetadataFrom(assets.Keys, limit, map[], config.metadata)
      case None => None
      case Some(metadata) => GenesisAccountsFrom(State(assets, map[], map[], metadata, map[], config.custodian), config.accounts)
  }

  /** Inserting fresh assets with nothing issued into a state without holdings keeps both invariants. */
  lemma {:induction false} GenesisAssetsKeepInvariants(m: map<AssetId, AssetDetails>, assets: seq<GenesisAsset>,
                                                        custodian: Option<AccountId>)
    requires GenesisAssetsFrom(m, assets).Some?
    requires WellFormed(State(m, map[], map[], map[], map[], custodian))
    requires Conserved(State(m, map[], map[], map[], map[], custodian))
    ensures WellFormed(State(GenesisAssetsFrom(m, assets).value, map[], map[], map[], map[], custodian))
    ensures Conserved(State(GenesisAssetsFrom(m, assets).value, map[], map[], map[], map[], custodian))
    decreases |assets|
  {
    if assets != [] {
      var (id, owner, isSufficient, minBalance) := assets[0];
      var d := NewAssetDetails(owner, isSufficient, minBalance);
      var s := State(m, map[], map[], map[], map[], custodian);
      InsertKeepsInvariants(s, id, d);
      assert s.(asset := s.asset[id := d]) == State(m[id := d], map[], map[], map[], map[], custodian);
      GenesisAssetsKeepInvariants(m[id := d], assets[1..], custodian);
    }
  }

  /**
   * A genesis that does not abort yields a state in which every holding and
   * metadata record belongs to an asset and every supply is the sum of its
   * holdings; each listed asset's supply is the total listed for it, and
   * the custodian is the configured one.
   */
  lemma GenesisKeepsInvariants(config: GenesisConfig, limit: nat)
    requires Genesis(config, limit).Some?
    ensures WellFormed(Genesis(config, limit).value) && Conserved(Genesis(config, limit).value)
    ensures MetadataBounded(Genesis(config, limit).value.metadata, limit)
    ensures Genesis(config, limit).value.custodian == config.custodian
    ensures forall i :: 0 <= i < |config.assets| ==>
      config.assets[i].0 in Genesis(config, limit).value.asset &&
      Genesis(config, limit).value.asset[config.assets[i].0].supply == GenesisAmountOf(config.accounts, config.assets[i].0)
  {
    var assets := GenesisAssetsFrom(map[], config.assets).value;
    var metadata := GenesisMetadataFrom(assets.Keys, limit, map[], config.metadata).value;
    var s0 := State(assets, map[], map[], metadata, map[], config.custodian);
    GenesisAssetsKeepInvariants(map[], config.assets, config.custodian);
    GenesisAssetsContents(map[], config.assets);
    GenesisMetadataKeys(assets.Keys, limit, map[], config.metadata);
    assert Conserved(s0) by {
      assert Conserved(State(assets, map[], map[], map[], map[], config.custodian));
    }
    GenesisAccountsKeepInvariants(s0, config.accounts);
    GenesisAccountsSupply(s0, config.accounts);
    forall i | 0 <= i < |config.assets|
      ensures config.assets[i].0 in assets && assets[config.assets[i].0].supply == 0
    {
      assert config.assets[i].0 in GenesisAssetIds(config.assets);
    }
  }

  class Pallet {
    /** `T::StringLimit`: the longest metadata string accepted. */
    const stringLimit: nat
    /** `T::AssetDeposit`, reserved from the creator of an asset. */
    const assetDeposit: Balance
    /** `T::MetadataDepositBase` and `T::MetadataDepositPerByte`. */
    const metadataDepositBase: Balance
    const metadataDepositPerByte: Balance
    /** `T::ApprovalDeposit`, reserved from the owner for each approval. */
    const approvalDeposit: Balance

    /** `Asset`. */
    var asset: map<AssetId, AssetDetails>
    /** `Account`, keyed by (asset, holder). */
    var account: map<AccountKey, AssetAccount>
    /** `Approvals`, keyed by (asset, owner, delegate). */
    var approvals: map<ApprovalKey, Approval>
    /** `Metadata`. */
    var metadata: map<AssetId, AssetMetadata>
    /** `BurnCertificate`, keyed by (burner, asset): the total burnt. */
    var burnCertificate: map<CertificateKey, Balance>
    /** `Custodian`. */
    var custodian: Option<AccountId>

    /** A pallet with the given configuration and empty storage. */
    constructor (stringLimit: nat, assetDeposit: Balance, metadataDepositBase: Balance,
                 metadataDepositPerByte: Balance, approvalDeposit: Balance)
      ensures this.stringLimit == stringLimit && this.assetDeposit == assetDeposit
      ensures this.metadataDepositBase == metadataDepositBase
      ensures this.metadataDepositPerByte == metadataDepositPerByte
      ensures this.approvalDeposit == approvalDeposit
      ensures Storage() == State(map[], map[], map[], map[], map[], None)
      ensures Valid() && Conserved(Storage())
    {
      this.stringLimit := stringLimit;
      this.assetDeposit := assetDeposit;
      this.metadataDepositBase := metadataDepositBase;
      this.metadataDepositPerByte := metadataDepositPerByte;
      this.approvalDeposit := approvalDeposit;
      asset, account, approvals, metadata, burnCertificate, custodian := map[], map[], map[], map[], map[], None;
    }

    /** All storage items as one value. */
    function Storage(): State
      reads this
    {
      State(asset, account, approvals, metadata, burnCertificate, custodian)
    }

    /** Writes every storage item from `t`. */
    method Commit(t: State)
      modifies this
      ensures Storage() == t
    {
      asset, account, approvals, metadata, burnCertificate, custodian :=
        t.asset, t.account, t.approvals, t.metadata, t.burnCertificate, t.custodian;
    }

    /**
     * Every holding and every metadata record belongs to an existing asset,
     * and every metadata string is within the string limit.
     */
    ghost predicate Valid()
      reads this
    {
      WellFormed(Storage()) && MetadataBounded(metadata, stringLimit)
    }

    /** `Pallet::balance`: the holding's balance, 0 without a holding. */
    function BalanceOf(id: AssetId, who: AccountId): (b: Balance)
      reads this
      ensures (id, who) in account ==> b == account[(id, who)].balance
      ensures (id, who) !in account ==> b == 0
    {
      BalanceAt(account, (id, who))
    }

    /** The deposit for metadata with the given name and symbol. */
    function MetadataDeposit(name: seq<Byte>, symbol: seq<Byte>): (deposit: Balance)
      ensures metadataDepositPerByte * (|name| + |symbol|) + metadataDepositBase <= U64_MAX ==>
        deposit == metadataDepositPerByte * (|name| + |symbol|) + metadataDepositBase
    {
      SaturatingAdd(SaturatingMul(metadataDepositPerByte, |name| + |symbol|), metadataDepositBase)
    }

    // ---------------------------------------------------------------------
    // Balance helpers behind the dispatchables.

    /**
     * `increase_balance`: credit `amount` to `who` and raise the supply by
     * it; with `checkIssuer` set (a mint) the caller must be the issuer.
     * A zero amount succeeds without touching storage.
     */
    method IncreaseBalance(id: AssetId, who: AccountId, amount: Balance, checkIssuer: Option<AccountId>)
      returns (r: DispatchResult<Error>)
      requires Valid()
      modifies this
      ensures Valid()
      ensures amount == 0 ==> r == Ok && Storage() == old(Storage())
      ensures amount > 0 ==> r == OkUnless(CreditFailure(old(Storage()), id, who, amount, checkIssuer))
      ensures r.Err? ==> Storage() == old(Storage())
      ensures r.Ok? && amount > 0 ==> Storage() == Credited(old(Storage()), id, who, amount)
      ensures Conserved(old(Storage())) ==> Conserved(Storage())
    {
      var s := Storage();
      var failure := CreditFailure(s, id, who, amount, checkIssuer);
      if amount == 0 {
        r := Ok;
      } else if failure.Some? {
        r := Err(failure.value);
      } else {
        var t := Credited(s, id, who, amount);
        CreditedKeepsWellFormed(s, id, who, amount);
        if Conserved(s) {
          CreditedKeepsConserved(s, id, who, amount);
        }
        Commit(t);
        r := Ok;
      }
    }

    /**
     * `decrease_balance`: take `amount` (or, with best effort, as much as
     * there is) from `who`, taking the whole holding when the remainder
     * would be dust, and lower the supply by what was taken. With
     * `checkAdmin` set (a privileged burn) the caller must be the admin.
     * Returns the amount actually taken.
     */
    method DecreaseBalance(id: AssetId, who: AccountId, amount: Balance, bestEffort: bool, checkAdmin: Option<AccountId>)
      returns (r: Result<Balance, Error>)
      requires Valid()
      modifies this
      ensures Valid()
      ensures amount == 0 ==> r == Success(0) && Storage() == old(Storage())
      ensures amount > 0 ==>
        (r.Failure? <==> DebitFailure(old(Storage()), id, who, amount, bestEffort, checkAdmin).Some?)
      ensures amount > 0 && r.Failure? ==>
        r.error == DebitFailure(old(Storage()), id, who, amount, bestEffort, checkAdmin).value
      ensures r.Failure? ==> Storage() == old(Storage())
      ensures r.Success? && amount > 0 ==>
        id in old(asset) && (id, who) in old(account) &&
        (bestEffort || amount <= old(account)[(id, who)].balance) &&
        r.value == DebitActual(old(account)[(id, who)].balance, amount, bestEffort, old(asset)[id].minBalance) &&
        Storage() == Debited(old(Storage()), id, who, r.value)
      ensures Conserved(old(Storage())) ==> Conserved(Storage())
    {
      var s := Storage();
      var failure := DebitFailure(s, id, who, amount, bestEffort, checkAdmin);
      if amount == 0 {
        r := Success(0);
      } else if failure.Some? {
        r := Failure(failure.value);
      } else {
        var actual := DebitActual(account[(id, who)].balance, amount, bestEffort, asset[id].minBalance);
        var t := Debited(s, id, who, actual);
        DebitedKeepsWellFormed(s, id, who, actual);
        if Conserved(s) {
          DebitedKeepsConserved(s, id, who, amount, bestEffort);
        }
        Commit(t);
        r := Success(actual);
      }
    }

    /**
     * `do_transfer`: move `amount` of `id` from `source` to `dest` (the
     * whole source holding when the remainder would be dust). With
     * `checkAdmin` set (a forced transfer) the caller must be the admin. A
     * transfer to oneself passes the checks and changes nothing. Returns the
     * amount debited.
     */
    method DoTransfer(id: AssetId, source: AccountId, dest: AccountId, amount: Balance, checkAdmin: Option<AccountId>)
      returns (r: Result<Balance, Error>)
      requires Valid()
      modifies this
      ensures Valid()
      ensures amount == 0 ==> r == Success(0) && Storage() == old(Storage())
      ensures amount > 0 ==>
        (r.Failure? <==> TransferFailure(old(Storage()), id, source, dest, amount, checkAdmin).Some?)
      ensures amount > 0 && r.Failure? ==>
        r.error == TransferFailure(old(Storage()), id, source, dest, amount, checkAdmin).value
      ensures r.Failure? ==> Storage() == old(Storage())
      ensures r.Success? && amount > 0 ==>
        id in old(asset) && (id, source) in old(account) && amount <= old(account)[(id, source)].balance &&
        r.value == DebitActual(old(account)[(id, source)].balance, amount, false, old(asset)[id].minBalance) &&
        BalanceAt(old(account), (id, dest)) + r.value <= U64_MAX &&
        (source == dest ==> Storage() == old(Storage())) &&
        (source != dest ==> Storage() == Transferred(old(Storage()), id, source, dest, r.value))
      ensures Conserved(old(Storage())) ==> Conserved(Storage())
    {
      var s := Storage();
      var failure := TransferFailure(s, id, source, dest, amount, checkAdmin);
      if amount == 0 {
        r := Success(0);
      } else if failure.Some? {
        r := Failure(failure.value);
      } else {
        var actual := DebitActual(account[(id, source)].balance, amount, false, asset[id].minBalance);
        if source != dest {
          var t := Transferred(s, id, source, dest, actual);
          TransferredKeepsWellFormed(s, id, source, dest, actual);
          if Conserved(s) {
            TransferredKeepsConserved(s, id, source, dest, amount);
          }
          Commit(t);
        }
        r := Success(actual);
      }
    }

    // ---------------------------------------------------------------------
    // Approvals.

    /** Why approving `delegate` over `owner`'s holding of `id` fails, if it does. */
    function ApproveFailure(id: AssetId, owner: AccountId, delegate: AccountId, reserveOk: bool): (failure: Option<Error>)
      reads this
      ensures id !in asset ==> failure == Some(Unknown)
      ensures failure.None? <==>
        id in asset && !asset[id].isFrozen && (reserveOk || approvalDeposit <= ApprovalAt(approvals, (id, owner, delegate)).deposit)
    {
      if id !in asset then Some(Unknown)
      else if asset[id].isFrozen then Some(Frozen)
      else if ApprovalAt(approvals, (id, owner, delegate)).deposit < approvalDeposit && !reserveOk then Some(ReserveFailed)
      else None
    }

    /**
     * `do_approve_transfer`: add `amount` to the approval of `delegate`
     * (additively, saturating), topping its deposit up to the approval
     * deposit; `reserveOk` is whether the currency reserve of the top-up
     * succeeds. A new approval is counted in the asset's `approvals`.
     */
    method DoApproveTransfer(id: AssetId, owner: AccountId, delegate: AccountId, amount: Balance, reserveOk: bool)
      returns (r: DispatchResult<Error>)
      requires Valid()
      modifies this
      ensures Valid()
      ensures r == OkUnless(old(ApproveFailure(id, owner, delegate, reserveOk)))
      ensures r.Err? ==> Storage() == old(Storage())
      ensures r.Ok? ==> Storage() == Approved(old(Storage()), (id, owner, delegate), amount, approvalDeposit)
      ensures Conserved(old(Storage())) ==> Conserved(Storage())
    {
      var failure := ApproveFailure(id, owner, delegate, reserveOk);
      if failure.Some? {
        r := Err(failure.value);
      } else {
        var s := Storage();
        var t := Approved(s, (id, owner, delegate), amount, approvalDeposit);
        ApprovedKeepsInvariants(s, (id, owner, delegate), amount, approvalDeposit);
        Commit(t);
        r := Ok;
      }
    }

    /**
     * `do_transfer_approved`: `delegate` moves `amount` from `owner` to
     * `dest` out of an approval of at least `amount`. The approval shrinks by
     * `amount`; once it reaches 0 it is removed and the asset's `approvals`
     * count drops.
     */
    method DoTransferApproved(id: AssetId, owner: AccountId, delegate: AccountId, dest: AccountId, amount: Balance)
      returns (r: DispatchResult<Error>)
      requires Valid()
      modifies this
      ensures Valid()
      ensures (id, owner, delegate) !in old(approvals) || old(approvals)[(id, owner, delegate)].amount < amount ==>
        r == Err(Unapproved)
      ensures (id, owner, delegate) in old(approvals) && amount <= old(approvals)[(id, owner, delegate)].amount ==>
        r == (if amount == 0 then Ok else OkUnless(TransferFailure(old(Storage()), id, owner, dest, amount, None)))
      ensures r.Err? ==> Storage() == old(Storage())
      ensures r.Ok? ==>
        (id, owner, delegate) in old(approvals) && amount <= old(approvals)[(id, owner, delegate)].amount &&
        Storage() == Spent(old(Storage()).(account := account), (id, owner, delegate), amount)
      ensures r.Ok? && (amount == 0 || owner == dest) ==> account == old(account)
      ensures r.Ok? && amount > 0 && owner != dest ==>
        account == Transferred(old(Storage()), id, owner, dest,
          DebitActual(old(account)[(id, owner)].balance, amount, false, old(asset)[id].minBalance)).account
      ensures Conserved(old(Storage())) ==> Conserved(Storage())
    {
      var key := (id, owner, delegate);
      if key !in approvals || approvals[key].amount < amount {
        r := Err(Unapproved);
      } else {
        var moved := DoTransfer(id, owner, dest, amount, None);
        if moved.Failure? {
          r := Err(moved.error);
        } else {
          var s := Storage();
          var t := Spent(s, key, amount);
          SpentKeepsInvariants(s, key, amount);
          Commit(t);
          r := Ok;
        }
      }
    }

    // ---------------------------------------------------------------------
    // Metadata.

    /** Why writing project data fails, if it does. */
    function ProjectDataFailure(id: AssetId, caller: AccountId, url: seq<Byte>, dataIpfs: seq<Byte>): (failure: Option<Error>)
      reads this
      ensures failure.None? <==>
        Bounded(url, stringLimit) && Bounded(dataIpfs, stringLimit) && id in asset &&
        (caller == asset[id].owner || custodian == Some(caller)) && asset[id].supply == 0 && id in metadata
    {
      if !Bounded(url, stringLimit) || !Bounded(dataIpfs, stringLimit) then Some(BadMetadata)
      else if id !in asset then Some(Unknown)
      else if caller != asset[id].owner && custodian != Some(caller) then Some(NoPermission)
      else if asset[id].supply > 0 then Some(CannotChangeAfterMint)
      else if id !in metadata then Some(NoMetadata)
      else None
    }

    /**
     * `update_metadata`: the owner or the custodian sets the project's url
     * and IPFS link of an asset that has metadata and nothing issued.
     */
    method UpdateMetadata(id: AssetId, caller: AccountId, url: seq<Byte>, dataIpfs: seq<Byte>)
      returns (r: DispatchResult<Error>)
      requires Valid()
      modifies this
      ensures Valid()
      ensures r == OkUnless(old(ProjectDataFailure(id, caller, url, dataIpfs)))
      ensures r.Err? ==> Storage() == old(Storage())
      ensures r.Ok? ==>
        metadata == old(metadata)[id := old(metadata)[id].(url := url, dataIpfs := dataIpfs)] &&
        Storage() == old(Storage()).(metadata := metadata)
      ensures Conserved(old(Storage())) ==> Conserved(Storage())
    {
      var failure := ProjectDataFailure(id, caller, url, dataIpfs);
      if failure.Some? {
        r := Err(failure.value);
      } else {
        metadata := metadata[id := metadata[id].(url := url, dataIpfs := dataIpfs)];
        r := Ok;
      }
    }

    /** The metadata stored for `id`, or the empty default. */
    function MetadataOf(id: AssetId): (m: AssetMetadata)
      reads this
      ensures id in metadata ==> m == metadata[id]
      ensures id !in metadata ==> m == DEFAULT_METADATA
    {
      if id in metadata then metadata[id] else DEFAULT_METADATA
    }

    /** Why the owner's setting of name, symbol and decimals fails, if it does. */
    function SetMetadataFailure(id: AssetId, from: AccountId, name: seq<Byte>, symbol: seq<Byte>, reserveOk: bool)
      : (failure: Option<Error>)
      reads this
      ensures failure.None? <==>
        Bounded(name, stringLimit) && Bounded(symbol, stringLimit) && id in asset && from == asset[id].owner &&
        !MetadataOf(id).isFrozen && (reserveOk || MetadataDeposit(name, symbol) <= MetadataOf(id).deposit)
    {
      if !Bounded(name, stringLimit) || !Bounded(symbol, stringLimit) then Some(BadMetadata)
      else if id !in asset then Some(Unknown)
      else if from != asset[id].owner then Some(NoPermission)
      else if MetadataOf(id).isFrozen then Some(NoPermission)
      else if MetadataOf(id).deposit < MetadataDeposit(name, symbol) && !reserveOk then Some(ReserveFailed)
      else None
    }

    /**
     * `do_set_metadata`: the owner sets name, symbol and decimals of an
     * asset whose metadata is not frozen; the deposit becomes the one for the
     * new strings (`reserveOk` is whether reserving the increase succeeds),
     * the project data already stored is kept and the result is unfrozen.
     */
    method DoSetMetadata(id: AssetId, from: AccountId, name: seq<Byte>, symbol: seq<Byte>, decimals: Byte, reserveOk: bool)
      returns (r: DispatchResult<Error>)
      requires Valid()
      modifies this
      ensures Valid()
      ensures r == OkUnless(old(SetMetadataFailure(id, from, name, symbol, reserveOk)))
      ensures r.Err? ==> Storage() == old(Storage())
      ensures r.Ok? ==>
        metadata == old(metadata)[id := AssetMetadata(MetadataDeposit(name, symbol), name, symbol,
                                                      old(MetadataOf(id)).url, old(MetadataOf(id)).dataIpfs, decimals, false)] &&
        Storage() == old(Storage()).(metadata := metadata)
      ensures Conserved(old(Storage())) ==> Conserved(Storage())
    {
      var failure := SetMetadataFailure(id, from, name, symbol, reserveOk);
      if failure.Some? {
        r := Err(failure.value);
      } else {
        var prior := MetadataOf(id);
        metadata := metadata[id := AssetMetadata(MetadataDeposit(name, symbol), name, symbol, prior.url, prior.dataIpfs, decimals, false)];
        r := Ok;
      }
    }

    // ---------------------------------------------------------------------
    // Asset creation.

    /** Why creating asset `id` with the given minimum balance fails, if it does. */
    function ForceCreateFailure(id: AssetId, minBalance: Balance): (failure: Option<Error>)
      reads this
      ensures failure.None? <==> id !in asset && minBalance > 0
      ensures id in asset ==> failure == Some(InUse)
    {
      if id in asset then Some(InUse)
      else if minBalance == 0 then Some(MinBalanceZero)
      else None
    }

    /**
     * `do_force_create`: insert a fresh asset under an unused id with
     * `owner` in every role and nothing issued.
     */
    method DoForceCreate(id: AssetId, owner: AccountId, isSufficient: bool, minBalance: Balance)
      returns (r: DispatchResult<Error>)
      requires Valid()
      modifies this
      ensures Valid()
      ensures r == OkUnless(old(ForceCreateFailure(id, minBalance)))
      ensures r.Err? ==> Storage() == old(Storage())
      ensures r.Ok? ==>
        asset == old(asset)[id := NewAssetDetails(owner, isSufficient, minBalance)] &&
        Storage() == old(Storage()).(asset := asset)
      ensures Conserved(old(Storage())) ==> Conserved(Storage())
    {
      var failure := ForceCreateFailure(id, minBalance);
      if failure.Some? {
        r := Err(failure.value);
      } else {
        InsertKeepsInvariants(Storage(), id, NewAssetDetails(owner, isSufficient, minBalance));
        asset := asset[id := NewAssetDetails(owner, isSufficient, minBalance)];
        r := Ok;
      }
    }

    // ---------------------------------------------------------------------
    // Genesis build.

    /** The first genesis loop: inserts the listed assets; `ok` false stands for the build aborting. */
    method InsertGenesisAssets(assets: seq<GenesisAsset>) returns (ok: bool)
      requires asset == map[]
      modifies this
      ensures ok <==> GenesisAssetsFrom(map[], assets).Some?
      ensures ok ==> Some(asset) == GenesisAssetsFrom(map[], assets)
      ensures Storage() == old(Storage()).(asset := asset)
    {
      ok := true;
      var i := 0;
      while i < |assets| && ok
        invariant 0 <= i <= |assets|
        invariant Storage() == old(Storage()).(asset := asset)
        invariant ok ==> GenesisAssetsFrom(map[], assets) == GenesisAssetsFrom(asset, assets[i..])
        invariant !ok ==> GenesisAssetsFrom(map[], assets).None?
        decreases |assets| - i, ok
      {
        var (id, owner, isSufficient, minBalance) := assets[i];
        assert assets[i..][1..] == assets[i + 1..];
        if id in asset || minBalance == 0 {
          ok := false;
        } else {
          asset := asset[id := NewAssetDetails(owner, isSufficient, minBalance)];
          i := i + 1;
        }
      }
      if ok {
        assert assets[i..] == [];
      }
    }

    /** The second genesis loop: writes the listed metadata; `ok` false stands for the build aborting. */
    method WriteGenesisMetadata(entries: seq<GenesisMetadata>) returns (ok: bool)
      requires metadata == map[]
      modifies this
      ensures ok <==> GenesisMetadataFrom(asset.Keys, stringLimit, map[], entries).Some?
      ensures ok ==> Some(metadata) == GenesisMetadataFrom(asset.Keys, stringLimit, map[], entries)
      ensures Storage() == old(Storage()).(metadata := metadata)
    {
      ok := true;
      var j := 0;
      while j < |entries| && ok
        invariant 0 <= j <= |entries|
        invariant Storage() == old(Storage()).(metadata := metadata)
        invariant ok ==> GenesisMetadataFrom(asset.Keys, stringLimit, map[], entries) ==
                         GenesisMetadataFrom(asset.Keys, stringLimit, metadata, entries[j..])
        invariant !ok ==> GenesisMetadataFrom(asset.Keys, stringLimit, map[], entries).None?
        decreases |entries| - j, ok
      {
        var (id, name, symbol, decimals) := entries[j];
        assert entries[j..][1..] == entries[j + 1..];
        if id !in asset || !Bounded(name, stringLimit) || !Bounded(symbol, stringLimit) {
          ok := false;
        } else {
          metadata := metadata[id := GenesisMetadataRecord(name, symbol, decimals)];
          j := j + 1;
        }
      }
      if ok {
        assert entries[j..] == [];
      }
    }

    /** The third genesis loop: credits the listed balances; `ok` false stands for the build aborting. */
    method CreditGenesisAccounts(entries: seq<GenesisAccount>) returns (ok: bool)
      requires Valid()
      modifies this
      ensures ok <==> GenesisAccountsFrom(old(Storage()), entries).Some?
      ensures ok ==> Some(Storage()) == GenesisAccountsFrom(old(Storage()), entries) && Valid()
    {
      ok := true;
      var k := 0;
      while k < |entries| && ok
        invariant 0 <= k <= |entries|
        invariant ok ==> Valid()
        invariant ok ==> GenesisAccountsFrom(old(Storage()), entries) == GenesisAccountsFrom(Storage(), entries[k..])
        invariant !ok ==> GenesisAccountsFrom(old(Storage()), entries).None?
        decreases |entries| - k, ok
      {
        var (id, who, amount) := entries[k];
        assert entries[k..][1..] == entries[k + 1..];
        var credited := IncreaseBalance(id, who, amount, None);
        if credited.Err? {
          ok := false;
        } else {
          k := k + 1;
        }
      }
      if ok {
        assert entries[k..] == [];
      }
    }

    /**
     * The genesis build on an empty pallet: it records the custodian, then
     * inserts the assets, writes their metadata and credits the balances in
     * the listed order. `ok` false stands for the build aborting, which
     * happens exactly when the specification `Genesis` gives None.
     */
    method BuildGenesis(config: GenesisConfig) returns (ok: bool)
      requires Storage() == State(map[], map[], map[], map[], map[], None)
      modifies this
      ensures ok <==> Genesis(config, stringLimit).Some?
      ensures ok ==> Storage() == Genesis(config, stringLimit).value
      ensures ok ==> Valid() && Conserved(Storage())
    {
      if config.custodian.Some? {
        custodian := config.custodian;
      }
      ok := InsertGenesisAssets(config.assets);
      if ok {
        ok := WriteGenesisMetadata(config.metadata);
        if ok {
          GenesisMetadataKeys(asset.Keys, stringLimit, map[], config.metadata);
          ok := CreditGenesisAccounts(config.accounts);
          if ok {
            GenesisKeepsInvariants(config, stringLimit);
          }
        }
      }
    }

    // ---------------------------------------------------------------------
    // Dispatchables: custodian, creation and project data.

    /** `set_custodian`: the force origin names the custodian. */
    method SetCustodian(origin: Origin, who: AccountId) returns (r: DispatchResult<Error>)
      requires Valid()
      modifies this
      ensures Valid()
      ensures r == (if origin.Root? then Ok else Err(BadOrigin))
      ensures r.Err? ==> Storage() == old(Storage())
      ensures r.Ok? ==> Storage() == old(Storage()).(custodian := Some(who))
      ensures Conserved(old(Storage())) ==> Conserved(Storage())
    {
      if origin.Signed? {
        r := Err(BadOrigin);
      } else {
        custodian := Some(who);
        r := Ok;
      }
    }

    /**
     * Why `create` fails, if it does: the caller must be signed and a
     * custodian set; `newId` is the outcome of allocating the asset id and
     * `reserveOk` of reserving the asset deposit; the metadata write that
     * follows must then succeed for the caller as the new owner.
     */
    function CreateFailure(origin: Origin, name: seq<Byte>, symbol: seq<Byte>, newId: Result<AssetId, Error>,
                           reserveOk: bool, metadataReserveOk: bool): (failure: Option<Error>)
      reads this
      ensures origin.Signed? && custodian.None? ==> failure == Some(NoCustodian)
      ensures failure.None? <==>
        origin.Signed? && custodian.Some? && newId.Success? && reserveOk &&
        Bounded(name, stringLimit) && Bounded(symbol, stringLimit) && !MetadataOf(newId.value).isFrozen &&
        (metadataReserveOk || MetadataDeposit(name, symbol) <= MetadataOf(newId.value).deposit)
    {
      if origin.Root? then Some(BadOrigin)
      else if custodian.None? then Some(NoCustodian)
      else if newId.Failure? then Some(newId.error)
      else if !reserveOk then Some(ReserveFailed)
      else if !Bounded(name, stringLimit) || !Bounded(symbol, stringLimit) then Some(BadMetadata)
      else if MetadataOf(newId.value).isFrozen then Some(NoPermission)
      else if MetadataOf(newId.value).deposit < MetadataDeposit(name, symbol) && !metadataReserveOk then Some(ReserveFailed)
      else None
    }

    /**
     * `create`: a signed caller issues a new carbon asset under the id
     * `newId` allocates, owned by the caller and governed by the custodian,
     * with metadata `name`, `symbol` and 9 decimals. The call is
     * transactional, so a failing metadata write also undoes the new asset.
     */
    method Create(origin: Origin, name: seq<Byte>, symbol: seq<Byte>, newId: Result<AssetId, Error>,
                  reserveOk: bool, metadataReserveOk: bool) returns (r: DispatchResult<Error>)
      requires Valid()
      modifies this
      ensures Valid()
      ensures r == OkUnless(old(CreateFailure(origin, name, symbol, newId, reserveOk, metadataReserveOk)))
      ensures r.Err? ==> Storage() == old(Storage())
      ensures r.Ok? ==>
        origin.Signed? && old(custodian).Some? && newId.Success? &&
        asset == old(asset)[newId.value := CarbonAssetDetails(origin.who, old(custodian).value, assetDeposit)] &&
        metadata == old(metadata)[newId.value := AssetMetadata(MetadataDeposit(name, symbol), name, symbol,
          old(MetadataOf(newId.value)).url, old(MetadataOf(newId.value)).dataIpfs, CREATED_DECIMALS, false)] &&
        Storage() == old(Storage()).(asset := asset, metadata := metadata)
      ensures Conserved(old(Storage())) && (newId.Success? ==> newId.value !in old(asset)) ==> Conserved(Storage())
    {
      if origin.Root? {
        r := Err(BadOrigin);
      } else if custodian.None? {
        r := Err(NoCustodian);
      } else if newId.Failure? {
        r := Err(newId.error);
      } else if !reserveOk {
        r := Err(ReserveFailed);
      } else {
        var owner, admin, id := origin.who, custodian.value, newId.value;
        var before := asset;
        var details := CarbonAssetDetails(owner, admin, assetDeposit);
        if id !in asset {
          InsertKeepsInvariants(Storage(), id, details);
        }
        asset := asset[id := details];
        r := DoSetMetadata(id, owner, name, symbol, CREATED_DECIMALS, metadataReserveOk);
        if r.Err? {
          asset := before;
        }
      }
    }

    /** `set_project_data`: a signed caller updates the project's url and IPFS link. */
    method SetProjectData(origin: Origin, id: AssetId, url: seq<Byte>, dataIpfs: seq<Byte>) returns (r: DispatchResult<Error>)
      requires Valid()
      modifies this
      ensures Valid()
      ensures origin.Root? ==> r == Err(BadOrigin)
      ensures origin.Signed? ==> r == OkUnless(old(ProjectDataFailure(id, origin.who, url, dataIpfs)))
      ensures r.Err? ==> Storage() == old(Storage())
      ensures r.Ok? ==>
        metadata == old(metadata)[id := old(metadata)[id].(url := url, dataIpfs := dataIpfs)] &&
        Storage() == old(Storage()).(metadata := metadata)
      ensures Conserved(old(Storage())) ==> Conserved(Storage())
    {
      if origin.Root? {
        r := Err(BadOrigin);
      } else {
        r := UpdateMetadata(id, origin.who, url, dataIpfs);
      }
    }

    /** `force_create`: the force origin issues an asset under a chosen id for `owner`. */
    method ForceCreate(origin: Origin, id: AssetId, owner: AccountId, isSufficient: bool, minBalance: Balance)
      returns (r: DispatchResult<Error>)
      requires Valid()
      modifies this
      ensures Valid()
      ensures origin.Signed? ==> r == Err(BadOrigin)
      ensures origin.Root? ==> r == OkUnless(old(ForceCreateFailure(id, minBalance)))
      ensures r.Err? ==> Storage() == old(Storage())
      ensures r.Ok? ==>
        asset == old(asset)[id := NewAssetDetails(owner, isSufficient, minBalance)] &&
        Storage() == old(Storage()).(asset := asset)
      ensures Conserved(old(Storage())) ==> Conserved(Storage())
    {
      if origin.Signed? {
        r := Err(BadOrigin);
      } else {
        r := DoForceCreate(id, owner, isSufficient, minBalance);
      }
    }

    // ---------------------------------------------------------------------
    // Dispatchables: issuing, burning and moving balances.

    /**
     * `mint`: the asset's issuer mints `amount`, always to the asset's
     * owner.
     */
    method Mint(origin: Origin, id: AssetId, amount: Balance) returns (r: DispatchResult<Error>)
      requires Valid()
      modifies this
      ensures Valid()
      ensures origin.Root? ==> r == Err(BadOrigin)
      ensures origin.Signed? && id !in old(asset) ==> r == Err(Unknown)
      ensures origin.Signed? && id in old(asset) ==>
        r == (if amount == 0 then Ok else OkUnless(CreditFailure(old(Storage()), id, old(asset)[id].owner, amount, Some(origin.who))))
      ensures r.Err? || amount == 0 ==> Storage() == old(Storage())
      ensures r.Ok? && amount > 0 ==>
        id in old(asset) && Storage() == Credited(old(Storage()), id, old(asset)[id].owner, amount)
      ensures Conserved(old(Storage())) ==> Conserved(Storage())
    {
      if origin.Root? {
        r := Err(BadOrigin);
      } else if id !in asset {
        r := Err(Unknown);
      } else {
        var beneficiary := asset[id].owner;
        r := IncreaseBalance(id, beneficiary, amount, Some(origin.who));
      }
    }

    /**
     * `burn`: the asset's admin burns `amount` from `who` (the whole holding
     * when the remainder would be dust); the burn certificate of `who` for
     * the asset then grows by `amount`, saturating.
     */
    method Burn(origin: Origin, id: AssetId, who: AccountId, amount: Balance) returns (r: DispatchResult<Error>)
      requires Valid()
      modifies this
      ensures Valid()
      ensures origin.Root? ==> r == Err(BadOrigin)
      ensures origin.Signed? ==>
        r == (if amount == 0 then Ok else OkUnless(DebitFailure(old(Storage()), id, who, amount, false, Some(origin.who))))
      ensures r.Err? ==> Storage() == old(Storage())
      ensures r.Ok? ==> burnCertificate == AccumulateBurn(old(burnCertificate), (who, id), amount)
      ensures r.Ok? && amount == 0 ==> Storage() == old(Storage()).(burnCertificate := burnCertificate)
      ensures r.Ok? && amount > 0 ==>
        id in old(asset) && (id, who) in old(account) && amount <= old(account)[(id, who)].balance &&
        Storage() == Debited(old(Storage()), id, who,
          DebitActual(old(account)[(id, who)].balance, amount, false, old(asset)[id].minBalance)).(burnCertificate := burnCertificate)
      ensures Conserved(old(Storage())) ==> Conserved(Storage())
    {
      if origin.Root? {
        r := Err(BadOrigin);
      } else {
        var debited := DecreaseBalance(id, who, amount, false, Some(origin.who));
        if debited.Failure? {
          r := Err(debited.error);
        } else {
          burnCertificate := AccumulateBurn(burnCertificate, (who, id), amount);
          r := Ok;
        }
      }
    }

    /**
     * `self_burn`: a holder burns `amount` of their own holding (the whole
     * holding when the remainder would be dust); their burn certificate for
     * the asset then grows by `amount`, saturating.
     */
    method SelfBurn(origin: Origin, id: AssetId, amount: Balance) returns (r: DispatchResult<Error>)
      requires Valid()
      modifies this
      ensures Valid()
      ensures origin.Root? ==> r == Err(BadOrigin)
      ensures origin.Signed? ==>
        r == (if amount == 0 then Ok else OkUnless(DebitFailure(old(Storage()), id, origin.who, amount, false, None)))
      ensures r.Err? ==> Storage() == old(Storage())
      ensures r.Ok? ==> origin.Signed? && burnCertificate == AccumulateBurn(old(burnCertificate), (origin.who, id), amount)
      ensures r.Ok? && amount == 0 ==> Storage() == old(Storage()).(burnCertificate := burnCertificate)
      ensures r.Ok? && amount > 0 ==>
        origin.Signed? && id in old(asset) && (id, origin.who) in old(account) && amount <= old(account)[(id, origin.who)].balance &&
        Storage() == Debited(old(Storage()), id, origin.who,
          DebitActual(old(account)[(id, origin.who)].balance, amount, false, old(asset)[id].minBalance)).(burnCertificate := burnCertificate)
      ensures Conserved(old(Storage())) ==> Conserved(Storage())
    {
      if origin.Root? {
        r := Err(BadOrigin);
      } else {
        var caller := origin.who;
        var debited := DecreaseBalance(id, caller, amount, false, None);
        if debited.Failure? {
          r := Err(debited.error);
        } else {
          burnCertificate := AccumulateBurn(burnCertificate, (caller, id), amount);
          r := Ok;
        }
      }
    }

    /** `transfer`: a signed holder moves `amount` of their holding to `dest`. */
    method Transfer(origin: Origin, id: AssetId, dest: AccountId, amount: Balance) returns (r: DispatchResult<Error>)
      requires Valid()
      modifies this
      ensures Valid()
      ensures origin.Root? ==> r == Err(BadOrigin)
      ensures origin.Signed? ==>
        r == (if amount == 0 then Ok else OkUnless(TransferFailure(old(Storage()), id, origin.who, dest, amount, None)))
      ensures r.Err? || amount == 0 || (origin.Signed? && origin.who == dest) ==> Storage() == old(Storage())
      ensures r.Ok? && origin.Signed? && amount > 0 && origin.who != dest ==>
        id in old(asset) && (id, origin.who) in old(account) && amount <= old(account)[(id, origin.who)].balance &&
        BalanceAt(old(account), (id, dest)) +
          DebitActual(old(account)[(id, origin.who)].balance, amount, false, old(asset)[id].minBalance) <= U64_MAX &&
        Storage() == Transferred(old(Storage()), id, origin.who, dest,
          DebitActual(old(account)[(id, origin.who)].balance, amount, false, old(asset)[id].minBalance))
      ensures Conserved(old(Storage())) ==> Conserved(Storage())
    {
      if origin.Root? {
        r := Err(BadOrigin);
      } else {
        var moved := DoTransfer(id, origin.who, dest, amount, None);
        r := if moved.Failure? then Err(moved.error) else Ok;
      }
    }

    /** `force_transfer`: the asset's admin moves `amount` from `source` to `dest`. */
    method ForceTransfer(origin: Origin, id: AssetId, source: AccountId, dest: AccountId, amount: Balance)
      returns (r: DispatchResult<Error>)
      requires Valid()
      modifies this
      ensures Valid()
      ensures origin.Root? ==> r == Err(BadOrigin)
      ensures origin.Signed? ==>
        r == (if amount == 0 then Ok else OkUnless(TransferFailure(old(Storage()), id, source, dest, amount, Some(origin.who))))
      ensures r.Err? || amount == 0 || source == dest ==> Storage() == old(Storage())
      ensures r.Ok? && amount > 0 && source != dest ==>
        id in old(asset) && (id, source) in old(account) && amount <= old(account)[(id, source)].balance &&
        BalanceAt(old(account), (id, dest)) +
          DebitActual(old(account)[(id, source)].balance, amount, false, old(asset)[id].minBalance) <= U64_MAX &&
        Storage() == Transferred(old(Storage()), id, source, dest,
          DebitActual(old(account)[(id, source)].balance, amount, false, old(asset)[id].minBalance))
      ensures Conserved(old(Storage())) ==> Conserved(Storage())
    {
      if origin.Root? {
        r := Err(BadOrigin);
      } else {
        var moved := DoTransfer(id, source, dest, amount, Some(origin.who));
        r := if moved.Failure? then Err(moved.error) else Ok;
      }
    }

    // ---------------------------------------------------------------------
    // Dispatchables: freezing and asset administration.

    /**
     * Why freezing (`thaw` false, by the freezer) or thawing (`thaw` true,
     * by the admin) the holding of `who` fails, if it does.
     */
    function HoldingFlagFailure(origin: Origin, id: AssetId, who: AccountId, thaw: bool): (failure: Option<Error>)
      reads this
      ensures origin.Signed? && id !in asset ==> failure == Some(Unknown)
      ensures failure.None? <==>
        origin.Signed? && id in asset && origin.who == (if thaw then asset[id].admin else asset[id].freezer) &&
        (id, who) in account
    {
      if origin.Root? then Some(BadOrigin)
      else if id !in asset then Some(Unknown)
      else if origin.who != (if thaw then asset[id].admin else asset[id].freezer) then Some(NoPermission)
      else if (id, who) !in account then Some(NoAccount)
      else None
    }

    /** `freeze`: the asset's freezer freezes the holding of `who`. */
    method Freeze(origin: Origin, id: AssetId, who: AccountId) returns (r: DispatchResult<Error>)
      requires Valid()
      modifies this
      ensures Valid()
      ensures r == OkUnless(old(HoldingFlagFailure(origin, id, who, false)))
      ensures r.Err? ==> Storage() == old(Storage())
      ensures r.Ok? ==>
        account == old(account)[(id, who) := old(account)[(id, who)].(isFrozen := true)] &&
        Storage() == old(Storage()).(account := account)
      ensures Conserved(old(Storage())) ==> Conserved(Storage())
    {
      var failure := HoldingFlagFailure(origin, id, who, false);
      if failure.Some? {
        r := Err(failure.value);
      } else {
        FreezeFlagKeepsInvariants(Storage(), (id, who), true);
        account := account[(id, who) := account[(id, who)].(isFrozen := true)];
        r := Ok;
      }
    }

    /** `thaw`: the asset's admin thaws the holding of `who`. */
    method Thaw(origin: Origin, id: AssetId, who: AccountId) returns (r: DispatchResult<Error>)
      requires Valid()
      modifies this
      ensures Valid()
      ensures r == OkUnless(old(HoldingFlagFailure(origin, id, who, true)))
      ensures r.Err? ==> Storage() == old(Storage())
      ensures r.Ok? ==>
        account == old(account)[(id, who) := old(account)[(id, who)].(isFrozen := false)] &&
        Storage() == old(Storage()).(account := account)
      ensures Conserved(old(Storage())) ==> Conserved(Storage())
    {
      var failure := HoldingFlagFailure(origin, id, who, true);
      if failure.Some? {
        r := Err(failure.value);
      } else {
        FreezeFlagKeepsInvariants(Storage(), (id, who), false);
        account := account[(id, who) := account[(id, who)].(isFrozen := false)];
        r := Ok;
      }
    }

    /**
     * Why freezing (`thaw` false, by the freezer) or thawing (`thaw` true,
     * by the admin) the whole asset fails, if it does.
     */
    function AssetFlagFailure(origin: Origin, id: AssetId, thaw: bool): (failure: Option<Error>)
      reads this
      ensures origin.Signed? && id !in asset ==> failure == Some(Unknown)
      ensures failure.None? <==>
        origin.Signed? && id in asset && origin.who == (if thaw then asset[id].admin else asset[id].freezer)
    {
      if origin.Root? then Some(BadOrigin)
      else if id !in asset then Some(Unknown)
      else if origin.who != (if thaw then asset[id].admin else asset[id].freezer) then Some(NoPermission)
      else None
    }

    /** `freeze_asset`: the asset's freezer freezes the whole asset. */
    method FreezeAsset(origin: Origin, id: AssetId) returns (r: DispatchResult<Error>)
      requires Valid()
      modifies this
      ensures Valid()
      ensures r == OkUnless(old(AssetFlagFailure(origin, id, false)))
      ensures r.Err? ==> Storage() == old(Storage())
      ensures r.Ok? ==>
        asset == old(asset)[id := old(asset)[id].(isFrozen := true)] && Storage() == old(Storage()).(asset := asset)
      ensures Conserved(old(Storage())) ==> Conserved(Storage())
    {
      var failure := AssetFlagFailure(origin, id, false);
      if failure.Some? {
        r := Err(failure.value);
      } else {
        var s, d := Storage(), asset[id].(isFrozen := true);
        DetailsEditKeepsInvariants(s, id, d);
        Commit(s.(asset := s.asset[id := d]));
        r := Ok;
      }
    }

    /** `thaw_asset`: the asset's admin thaws the whole asset. */
    method ThawAsset(origin: Origin, id: AssetId) returns (r: DispatchResult<Error>)
      requires Valid()
      modifies this
      ensures Valid()
      ensures r == OkUnless(old(AssetFlagFailure(origin, id, true)))
      ensures r.Err? ==> Storage() == old(Storage())
      ensures r.Ok? ==>
        asset == old(asset)[id := old(asset)[id].(isFrozen := false)] && Storage() == old(Storage()).(asset := asset)
      ensures Conserved(old(Storage())) ==> Conserved(Storage())
    {
      var failure := AssetFlagFailure(origin, id, true);
      if failure.Some? {
        r := Err(failure.value);
      } else {
        var s, d := Storage(), asset[id].(isFrozen := false);
        DetailsEditKeepsInvariants(s, id, d);
        Commit(s.(asset := s.asset[id := d]));
        r := Ok;
      }
    }

    /**
     * Why `transfer_ownership` fails, if it does; `repatriateOk` is whether
     * moving the reserved deposits to the new owner succeeds, which is only
     * attempted when the owner actually changes.
     */
    function OwnershipFailure(origin: Origin, id: AssetId, newOwner: AccountId, repatriateOk: bool): (failure: Option<Error>)
      reads this
      ensures origin.Signed? && id !in asset ==> failure == Some(Unknown)
      ensures failure.None? <==>
        origin.Signed? && id in asset && origin.who == asset[id].owner && (asset[id].owner == newOwner || repatriateOk)
    {
      if origin.Root? then Some(BadOrigin)
      else if id !in asset then Some(Unknown)
      else if origin.who != asset[id].owner then Some(NoPermission)
      else if asset[id].owner == newOwner then None
      else if !repatriateOk then Some(ReserveFailed)
      else None
    }

    /**
     * `transfer_ownership`: the owner hands the asset to `newOwner`; handing
     * it to oneself succeeds and changes nothing.
     */
    method TransferOwnership(origin: Origin, id: AssetId, newOwner: AccountId, repatriateOk: bool)
      returns (r: DispatchResult<Error>)
      requires Valid()
      modifies this
      ensures Valid()
      ensures r == OkUnless(old(OwnershipFailure(origin, id, newOwner, repatriateOk)))
      ensures r.Err? ==> Storage() == old(Storage())
      ensures r.Ok? && old(asset)[id].owner == newOwner ==> Storage() == old(Storage())
      ensures r.Ok? ==>
        asset == old(asset)[id := old(asset)[id].(owner := newOwner)] && Storage() == old(Storage()).(asset := asset)
      ensures Conserved(old(Storage())) ==> Conserved(Storage())
    {
      var failure := OwnershipFailure(origin, id, newOwner, repatriateOk);
      if failure.Some? {
        r := Err(failure.value);
      } else if asset[id].owner == newOwner {
        assert asset[id := asset[id].(owner := newOwner)] == asset;
        r := Ok;
      } else {
        var s, d := Storage(), asset[id].(owner := newOwner);
        DetailsEditKeepsInvariants(s, id, d);
        Commit(s.(asset := s.asset[id := d]));
        r := Ok;
      }
    }

    /** `force_asset_status`: the force origin rewrites an asset's roles, minimum balance and flags. */
    method ForceAssetStatus(origin: Origin, id: AssetId, owner: AccountId, issuer: AccountId, admin: AccountId,
                            freezer: AccountId, minBalance: Balance, isSufficient: bool, isFrozen: bool)
      returns (r: DispatchResult<Error>)
      requires Valid()
      modifies this
      ensures Valid()
      ensures r == (if origin.Signed? then Err(BadOrigin) else if id !in old(asset) then Err(Unknown) else Ok)
      ensures r.Err? ==> Storage() == old(Storage())
      ensures r.Ok? ==>
        asset == old(asset)[id := old(asset)[id].(owner := owner, issuer := issuer, admin := admin, freezer := freezer,
                                                  minBalance := minBalance, isSufficient := isSufficient, isFrozen := isFrozen)] &&
        Storage() == old(Storage()).(asset := asset)
      ensures Conserved(old(Storage())) ==> Conserved(Storage())
    {
      if origin.Signed? {
        r := Err(BadOrigin);
      } else if id !in asset {
        r := Err(Unknown);
      } else {
        var d := asset[id].(owner := owner, issuer := issuer, admin := admin, freezer := freezer,
                            minBalance := minBalance, isSufficient := isSufficient, isFrozen := isFrozen);
        var s := Storage();
        DetailsEditKeepsInvariants(s, id, d);
        Commit(s.(asset := s.asset[id := d]));
        r := Ok;
      }
    }

    // ---------------------------------------------------------------------
    // Dispatchables: forced metadata.

    /**
     * `force_set_metadata`: the force origin writes all metadata fields of an
     * existing asset, keeping the deposit already held (0 when none).
     */
    method ForceSetMetadata(origin: Origin, id: AssetId, name: seq<Byte>, symbol: seq<Byte>, url: seq<Byte>,
                            dataIpfs: seq<Byte>, decimals: Byte, isFrozen: bool) returns (r: DispatchResult<Error>)
      requires Valid()
      modifies this
      ensures Valid()
      ensures r == (if origin.Signed? then Err(BadOrigin)
                    else if !Bounded(name, stringLimit) || !Bounded(symbol, stringLimit) ||
                            !Bounded(url, stringLimit) || !Bounded(dataIpfs, stringLimit) then Err(BadMetadata)
                    else if id !in old(asset) then Err(Unknown)
                    else Ok)
      ensures r.Err? ==> Storage() == old(Storage())
      ensures r.Ok? ==>
        metadata == old(metadata)[id := AssetMetadata(old(MetadataOf(id)).deposit, name, symbol, url, dataIpfs, decimals, isFrozen)] &&
        Storage() == old(Storage()).(metadata := metadata)
      ensures Conserved(old(Storage())) ==> Conserved(Storage())
    {
      if origin.Signed? {
        r := Err(BadOrigin);
      } else if !Bounded(name, stringLimit) || !Bounded(symbol, stringLimit) || !Bounded(url, stringLimit) || !Bounded(dataIpfs, stringLimit) {
        r := Err(BadMetadata);
      } else if id !in asset {
        r := Err(Unknown);
      } else {
        var deposit := MetadataOf(id).deposit;
        metadata := metadata[id := AssetMetadata(deposit, name, symbol, url, dataIpfs, decimals, isFrozen)];
        r := Ok;
      }
    }

    /** `force_clear_metadata`: the force origin removes an asset's metadata. */
    method ForceClearMetadata(origin: Origin, id: AssetId) returns (r: DispatchResult<Error>)
      requires Valid()
      modifies this
      ensures Valid()
      ensures r == (if origin.Signed? then Err(BadOrigin)
                    else if id !in old(asset) || id !in old(metadata) then Err(Unknown)
                    else Ok)
      ensures r.Err? ==> Storage() == old(Storage())
      ensures r.Ok? ==> metadata == old(metadata) - {id} && Storage() == old(Storage()).(metadata := metadata)
      ensures Conserved(old(Storage())) ==> Conserved(Storage())
    {
      if origin.Signed? {
        r := Err(BadOrigin);
      } else if id !in asset || id !in metadata {
        r := Err(Unknown);
      } else {
        metadata := metadata - {id};
        r := Ok;
      }
    }

    // ---------------------------------------------------------------------
    // Dispatchables: approvals.

    /** `approve_transfer`: a signed owner lets `delegate` move `amount` more of their holding. */
    method ApproveTransfer(origin: Origin, id: AssetId, delegate: AccountId, amount: Balance, reserveOk: bool)
      returns (r: DispatchResult<Error>)
      requires Valid()
      modifies this
      ensures Valid()
      ensures origin.Root? ==> r == Err(BadOrigin)
      ensures origin.Signed? ==> r == OkUnless(old(ApproveFailure(id, origin.who, delegate, reserveOk)))
      ensures r.Err? ==> Storage() == old(Storage())
      ensures r.Ok? ==> origin.Signed? && Storage() == Approved(old(Storage()), (id, origin.who, delegate), amount, approvalDeposit)
      ensures Conserved(old(Storage())) ==> Conserved(Storage())
    {
      if origin.Root? {
        r := Err(BadOrigin);
      } else {
        r := DoApproveTransfer(id, origin.who, delegate, amount, reserveOk);
      }
    }

    /** `cancel_approval`: a signed owner withdraws the whole approval of `delegate`. */
    method CancelApproval(origin: Origin, id: AssetId, delegate: AccountId) returns (r: DispatchResult<Error>)
      requires Valid()
      modifies this
      ensures Valid()
      ensures r == (if origin.Root? then Err(BadOrigin)
                    else if id !in old(asset) || (id, origin.who, delegate) !in old(approvals) then Err(Unknown)
                    else Ok)
      ensures r.Err? ==> Storage() == old(Storage())
      ensures r.Ok? ==> origin.Signed? && Storage() == Cancelled(old(Storage()), (id, origin.who, delegate))
      ensures Conserved(old(Storage())) ==> Conserved(Storage())
    {
      if origin.Root? {
        r := Err(BadOrigin);
      } else if id !in asset || (id, origin.who, delegate) !in approvals {
        r := Err(Unknown);
      } else {
        var key := (id, origin.who, delegate);
        var s := Storage();
        var t := Cancelled(s, key);
        CancelledKeepsInvariants(s, key);
        Commit(t);
        r := Ok;
      }
    }

    /**
     * `force_cancel_approval`: the force origin, or the asset's admin,
     * withdraws the whole approval of `delegate` over `owner`'s holding.
     */
    method ForceCancelApproval(origin: Origin, id: AssetId, owner: AccountId, delegate: AccountId)
      returns (r: DispatchResult<Error>)
      requires Valid()
      modifies this
      ensures Valid()
      ensures r == (if id !in old(asset) then Err(Unknown)
                    else if origin.Signed? && origin.who != old(asset)[id].admin then Err(NoPermission)
                    else if (id, owner, delegate) !in old(approvals) then Err(Unknown)
                    else Ok)
      ensures r.Err? ==> Storage() == old(Storage())
      ensures r.Ok? ==> Storage() == Cancelled(old(Storage()), (id, owner, delegate))
      ensures Conserved(old(Storage())) ==> Conserved(Storage())
    {
      var key := (id, owner, delegate);
      if id !in asset {
        r := Err(Unknown);
      } else if origin.Signed? && origin.who != asset[id].admin {
        r := Err(NoPermission);
      } else if key !in approvals {
        r := Err(Unknown);
      } else {
        var s := Storage();
        var t := Cancelled(s, key);
        CancelledKeepsInvariants(s, key);
        Commit(t);
        r := Ok;
      }
    }

    /** `transfer_approved`: a signed delegate moves `amount` of `owner`'s holding to `dest`. */
    method TransferApproved(origin: Origin, id: AssetId, owner: AccountId, dest: AccountId, amount: Balance)
      returns (r: DispatchResult<Error>)
      requires Valid()
      modifies this
      ensures Valid()
      ensures origin.Root? ==> r == Err(BadOrigin)
      ensures (origin.Signed? &&
               ((id, owner, origin.who) !in old(approvals) || old(approvals)[(id, owner, origin.who)].amount < amount)) ==>
        r == Err(Unapproved)
      ensures (origin.Signed? &&
               (id, owner, origin.who) in old(approvals) && amount <= old(approvals)[(id, owner, origin.who)].amount) ==>
        r == (if amount == 0 then Ok else OkUnless(TransferFailure(old(Storage()), id, owner, dest, amount, None)))
      ensures r.Err? ==> Storage() == old(Storage())
      ensures r.Ok? ==>
        origin.Signed? &&
        (id, owner, origin.who) in old(approvals) && amount <= old(approvals)[(id, owner, origin.who)].amount &&
        Storage() == Spent(old(Storage()).(account := account), (id, owner, origin.who), amount)
      ensures r.Ok? && (amount == 0 || owner == dest) ==> account == old(account)
      ensures r.Ok? && amount > 0 && owner != dest ==>
        account == Transferred(old(Storage()), id, owner, dest,
          DebitActual(old(account)[(id, owner)].balance, amount, false, old(asset)[id].minBalance)).account
      ensures Conserved(old(Storage())) ==> Conserved(Storage())
    {
      if origin.Root? {
        r := Err(BadOrigin);
      } else {
        r := DoTransferApproved(id, owner, origin.who, dest, amount);
      }
    }
  }
}
