/**
 * Campaign payments (server/src/services/payment.service.ts): the 8%
 * commission split, the payment webhook that pays the platform and then the
 * influencer (bank transfer or wallet credit, with the wallet as fallback),
 * the wallet ledger with its balance-before/after entries, withdrawals, and
 * bank-account registration.
 *
 * Each operation runs inside a Mongo session transaction: when it throws,
 * every write of that call is rolled back, which the model shows as an
 * `Err` with the collections unchanged. Provider calls (transfers, account
 * resolution, payment initialisation) are represented by their outcomes.
 */
module Payments {
  import opened Common
  import Paystack

  const CommissionRate: real := 0.08

  /** The values the transaction schema accepts for `influencerPayoutPreference`. */
  const SchemaPreferences: seq<string> := ["direct_bank", "platform_wallet"]

  datatype PaymentStatus = TxPending | Processing | Completed | TxFailed

  datatype TransferStatus = TransferCompleted | TransferFailed

  datatype Transaction = Transaction(
    id: string,
    campaignId: string,
    brandId: string,
    influencerId: string,
    totalAmount: real,
    platformCommission: real,
    influencerAmount: real,
    payoutPreference: string,
    reference: string,
    paystackTransactionId: Option<string>,
    commissionTransferStatus: TransferStatus,
    influencerPayoutStatus: TransferStatus,
    paymentStatus: PaymentStatus)

  datatype Wallet = Wallet(id: string, userId: string, userType: string,
                           balance: real, totalEarnings: real, totalWithdrawals: real)

  datatype EntryKind = Credit | Debit

  datatype WalletEntry = WalletEntry(walletId: string, userId: string, kind: EntryKind, amount: real,
                                     sourceId: Option<string>, balanceBefore: real, balanceAfter: real)

  datatype BankAccount = BankAccount(influencerId: string, accountNumber: string, bankCode: string,
                                     accountName: string, bankName: string, recipientCode: string,
                                     isActive: bool, isVerified: bool)

  datatype CampaignTotals = CampaignTotals(totalAmountPaid: real, totalCommissionPaid: real)

  datatype PaymentError =
    | InfluencerNotFound
    | ValidationFailed
    | PaymentInitFailed
    | TransactionNotFound
    | CommissionTransferFailed
    | WalletNotFound
    | InsufficientBalance
    | NoVerifiedBankAccount
    | WithdrawalTransferFailed
    | InvalidBankAccount
    | RecipientCreationFailed

  datatype Split = Split(platformCommission: real, influencerAmount: real)

  /** The commission split of `initiatePayment`. */
  function SplitAmount(total: real): (s: Split)
    ensures s.platformCommission + s.influencerAmount == total
    ensures total >= 0.0 ==> 0.0 <= s.platformCommission <= total && 0.0 <= s.influencerAmount <= total
    ensures s.platformCommission == total * CommissionRate
  {
    var commission := total * CommissionRate;
    Split(commission, total - commission)
  }

  /** `influencerPayoutPreference === 'bank'` selects the bank transfer; every other value the wallet. */
  predicate RoutesToBank(preference: string)
  {
    preference == "bank"
  }

  /** No stored transaction with a schema-valid preference is ever routed to the bank. */
  lemma SchemaPreferencesRouteToWallet(preference: string)
    requires preference in SchemaPreferences
    ensures !RoutesToBank(preference)
  {
  }

  // ---- Lookups ----

  function FindTransaction(txs: seq<Transaction>, reference: string): (r: Option<nat>)
    ensures r.Some? ==> r.value < |txs| && txs[r.value].reference == reference
    ensures r.None? ==> forall j :: 0 <= j < |txs| ==> txs[j].reference != reference
  {
    if txs == [] then None
    else if txs[0].reference == reference then Some(0)
    else match FindTransaction(txs[1..], reference)
      case None => None
      case Some(k) => Some(k + 1)
  }

  function FindWallet(ws: seq<Wallet>, userId: string, userType: string): (r: Option<nat>)
    ensures r.Some? ==> r.value < |ws| && ws[r.value].userId == userId && ws[r.value].userType == userType
    ensures r.None? ==> forall j :: 0 <= j < |ws| ==> !(ws[j].userId == userId && ws[j].userType == userType)
  {
    if ws == [] then None
    else if ws[0].userId == userId && ws[0].userType == userType then Some(0)
    else match FindWallet(ws[1..], userId, userType)
      case None => None
      case Some(k) => Some(k + 1)
  }

  predicate IsUsableAccount(b: BankAccount, influencerId: string)
  {
    b.influencerId == influencerId && b.isActive && b.isVerified
  }

  function FindUsableAccount(bs: seq<BankAccount>, influencerId: string): (r: Option<nat>)
    ensures r.Some? ==> r.value < |bs| && IsUsableAccount(bs[r.value], influencerId)
    ensures r.None? ==> forall j :: 0 <= j < |bs| ==> !IsUsableAccount(bs[j], influencerId)
  {
    if bs == [] then None
    else if IsUsableAccount(bs[0], influencerId) then Some(0)
    else match FindUsableAccount(bs[1..], influencerId)
      case None => None
      case Some(k) => Some(k + 1)
  }

  // ---- The ledger as a value, and each operation's outcome ----

  datatype Ledger = Ledger(
    transactions: seq<Transaction>,
    wallets: seq<Wallet>,
    entries: seq<WalletEntry>,
    accounts: seq<BankAccount>,
    campaigns: map<string, CampaignTotals>)

  /** Every wallet's balance is its earnings minus its withdrawals. */
  predicate WalletsBalanced(ws: seq<Wallet>)
  {
    forall i :: 0 <= i < |ws| ==> ws[i].balance == ws[i].totalEarnings - ws[i].totalWithdrawals
  }

  /** Every ledger entry moves the balance by its amount. */
  predicate EntriesConsistent(es: seq<WalletEntry>)
  {
    forall i :: 0 <= i < |es| ==>
      es[i].balanceAfter == (if es[i].kind == Credit then es[i].balanceBefore + es[i].amount
                             else es[i].balanceBefore - es[i].amount)
  }

  /** Every stored transaction splits its amount exactly and holds a preference the schema accepts. */
  predicate TransactionsWellFormed(txs: seq<Transaction>)
  {
    forall i :: 0 <= i < |txs| ==>
      txs[i].platformCommission + txs[i].influencerAmount == txs[i].totalAmount
      && txs[i].payoutPreference in SchemaPreferences
  }

  predicate LedgerValid(l: Ledger)
  {
    WalletsBalanced(l.wallets) && EntriesConsistent(l.entries) && TransactionsWellFormed(l.transactions)
  }

  /** `creditWallet` for the transaction at `i`: find or create the wallet, add the amount, log the entry. */
  function Credited(l: Ledger, i: nat, newWalletId: string): (r: Ledger)
    requires i < |l.transactions|
    ensures |r.transactions| == |l.transactions| && |r.entries| == |l.entries| + 1
  {
    var tx := l.transactions[i];
    var found := FindWallet(l.wallets, tx.influencerId, "influencer");
    var ws := if found.None? then l.wallets + [Wallet(newWalletId, tx.influencerId, "influencer", 0.0, 0.0, 0.0)]
              else l.wallets;
    var k := if found.None? then |l.wallets| else found.value;
    var w := ws[k];
    var w' := w.(balance := w.balance + tx.influencerAmount, totalEarnings := w.totalEarnings + tx.influencerAmount);
    var entry := WalletEntry(w.id, tx.influencerId, Credit, tx.influencerAmount, Some(tx.campaignId), w.balance, w'.balance);
    l.(wallets := ws[k := w'], entries := l.entries + [entry],
       transactions := l.transactions[i := tx.(influencerPayoutStatus := TransferCompleted)])
  }

  /** The influencer payout of the transaction at `i`, after the commission transfer succeeded. */
  function PaidOut(l: Ledger, i: nat, bankOk: bool, newWalletId: string): (r: Ledger)
    requires i < |l.transactions|
    ensures |r.transactions| == |l.transactions|
  {
    var tx := l.transactions[i];
    if !RoutesToBank(tx.payoutPreference) then Credited(l, i, newWalletId)
    else if FindUsableAccount(l.accounts, tx.influencerId).None? then Credited(l, i, newWalletId)
    else if bankOk then l.(transactions := l.transactions[i := tx.(influencerPayoutStatus := TransferCompleted)])
    else Credited(l.(transactions := l.transactions[i := tx.(influencerPayoutStatus := TransferFailed)]), i, newWalletId)
  }

  function AddToCampaign(cs: map<string, CampaignTotals>, campaignId: string, amount: real, commission: real)
    : map<string, CampaignTotals>
  {
    if campaignId in cs then
      cs[campaignId := CampaignTotals(cs[campaignId].totalAmountPaid + amount,
                                      cs[campaignId].totalCommissionPaid + commission)]
    else cs
  }

  /**
   * `handlePaymentWebhook`. `commissionOk` and `bankOk` are the outcomes of
   * the two provider transfers; the result is `Ok(true)` on a completed
   * payment and `Ok(false)` on a reported failure.
   */
  function WebhookOutcome(l: Ledger, reference: string, status: string, providerTxId: string,
                          commissionOk: bool, bankOk: bool, newWalletId: string)
    : (Result<bool, PaymentError>, Ledger)
  {
    match FindTransaction(l.transactions, reference)
    case None => (Err(TransactionNotFound), l)
    case Some(i) =>
      var tx := l.transactions[i];
      if status != "success" then
        (Ok(false), l.(transactions := l.transactions[i := tx.(paymentStatus := TxFailed)]))
      else if !commissionOk then (Err(CommissionTransferFailed), l)
      else
        var l1 := l.(transactions := l.transactions[i := tx.(paymentStatus := Processing,
                                                              paystackTransactionId := Some(providerTxId),
                                                              commissionTransferStatus := TransferCompleted)]);
        var l2 := PaidOut(l1, i, bankOk, newWalletId);
        var l3 := l2.(transactions := l2.transactions[i := l2.transactions[i].(paymentStatus := Completed)],
                      campaigns := AddToCampaign(l2.campaigns, tx.campaignId, tx.totalAmount, tx.platformCommission));
        (Ok(true), l3)
  }

  /**
   * `withdrawFromWallet`; `transfer` is the provider's answer to the transfer
   * request: the reference it returns, `None` when the request threw.
   */
  function WithdrawOutcome(l: Ledger, userId: string, amount: real, transfer: Option<string>)
    : (Result<string, PaymentError>, Ledger)
  {
    match FindWallet(l.wallets, userId, "influencer")
    case None => (Err(WalletNotFound), l)
    case Some(k) =>
      var w := l.wallets[k];
      if w.balance < amount then (Err(InsufficientBalance), l)
      else if FindUsableAccount(l.accounts, userId).None? then (Err(NoVerifiedBankAccount), l)
      else if transfer.None? then (Err(WithdrawalTransferFailed), l)
      else
        var w' := w.(balance := w.balance - amount, totalWithdrawals := w.totalWithdrawals + amount);
        (Ok(transfer.value),
         l.(wallets := l.wallets[k := w'],
            entries := l.entries + [WalletEntry(w.id, userId, Debit, amount, None, w.balance, w'.balance)]))
  }

  function Deactivated(bs: seq<BankAccount>, influencerId: string): (r: seq<BankAccount>)
    ensures |r| == |bs|
    ensures forall i :: 0 <= i < |bs| ==>
      r[i] == (if bs[i].influencerId == influencerId then bs[i].(isActive := false) else bs[i])
  {
    if bs == [] then []
    else [if bs[0].influencerId == influencerId then bs[0].(isActive := false) else bs[0]] + Deactivated(bs[1..], influencerId)
  }

  /** `addInfluencerBankAccount`; the resolved account name and the recipient code come from the provider. */
  function AddAccountOutcome(l: Ledger, influencerId: string, accountNumber: string, bankCode: string, bankName: string,
                             resolvedName: Option<string>, recipientCode: Option<string>)
    : (Result<BankAccount, PaymentError>, Ledger)
  {
    if resolvedName.None? then (Err(InvalidBankAccount), l)
    else if recipientCode.None? then (Err(RecipientCreationFailed), l)
    else
      var b := BankAccount(influencerId, accountNumber, bankCode, resolvedName.value, bankName, recipientCode.value, true, true);
      (Ok(b), l.(accounts := Deactivated(l.accounts, influencerId) + [b]))
  }

  datatype WalletView = WalletView(balance: real, totalEarnings: real, totalWithdrawals: real)

  function Take<T>(s: seq<T>, n: nat): seq<T>
  {
    if |s| <= n then s else s[..n]
  }

  /** Newest first: entries are appended in time order. */
  function NewestFirst(es: seq<WalletEntry>, userId: string): seq<WalletEntry>
  {
    if es == [] then []
    else NewestFirst(es[1..], userId) + (if es[0].userId == userId then [es[0]] else [])
  }

  /** `getWallet`: the stored wallet with at most 20 newest entries, or an all-zero wallet with none. */
  function GetWallet(l: Ledger, userId: string, userType: string): (WalletView, seq<WalletEntry>)
  {
    match FindWallet(l.wallets, userId, userType)
    case None => (WalletView(0.0, 0.0, 0.0), [])
    case Some(k) =>
      var w := l.wallets[k];
      (WalletView(w.balance, w.totalEarnings, w.totalWithdrawals), Take(NewestFirst(l.entries, userId), 20))
  }

  datatype Initiated = Initiated(transaction: Transaction, paymentUrl: string, reference: string, amountInKobo: int)

  /**
   * `initiatePayment` once the influencer was found: the transaction is built
   * with `preference`, validated and saved, and the provider's answer
   * `paymentUrl` (`None` when initialisation threw) decides whether the
   * session commits. The reference is `generateReference('CAMPAIGN')` of the
   * clock and random text.
   */
  function CreateTransaction(l: Ledger, preference: string, newId: string, campaignId: string, brandId: string,
                             influencerId: string, amount: real, timestamp: nat, random: string,
                             paymentUrl: Option<string>): (Result<Initiated, PaymentError>, Ledger)
  {
    var split := SplitAmount(amount);
    var reference := Paystack.GenerateReference(Some("CAMPAIGN"), timestamp, random);
    if preference !in SchemaPreferences then (Err(ValidationFailed), l)
    else if paymentUrl.None? then (Err(PaymentInitFailed), l)
    else
      var tx := Transaction(newId, campaignId, brandId, influencerId, amount, split.platformCommission,
                            split.influencerAmount, preference, reference, None, TransferCompleted,
                            TransferCompleted, TxPending);
      (Ok(Initiated(tx, paymentUrl.value, reference, Paystack.ToKobo(amount))),
       l.(transactions := l.transactions + [tx]))
  }

  /** `influencer.payoutPreference || 'bank'`, with "" for a preference that was not loaded. */
  function RecordedPreference(loaded: string): string
  {
    if loaded != "" then loaded else "bank"
  }

  /**
   * What the influencer query loads as its preference: the projection
   * `.select('paystackRecipientCode')` keeps only the id and the recipient
   * code, so `payoutPreference` is never loaded.
   */
  const ProjectedPreference: string := ""

  /** `initiatePayment` as written; `influencers` maps each influencer id to its stored preference. */
  function InitiateOutcome(l: Ledger, influencers: map<string, string>, newId: string, campaignId: string,
                           brandId: string, influencerId: string, amount: real, timestamp: nat, random: string,
                           paymentUrl: Option<string>): (Result<Initiated, PaymentError>, Ledger)
  {
    if influencerId !in influencers then (Err(InfluencerNotFound), l)
    else CreateTransaction(l, RecordedPreference(ProjectedPreference), newId, campaignId, brandId, influencerId,
                           amount, timestamp, random, paymentUrl)
  }

  /** The evidently intended preference: the stored one, or the schema's default "direct_bank" when unset. */
  function IntendedPreference(stored: string): string
  {
    if stored != "" then stored else "direct_bank"
  }

  /** `initiatePayment` with the preference loaded and a schema-valid fallback. */
  function IntendedInitiateOutcome(l: Ledger, influencers: map<string, string>, newId: string, campaignId: string,
                                   brandId: string, influencerId: string, amount: real, timestamp: nat,
                                   random: string, paymentUrl: Option<string>): (Result<Initiated, PaymentError>, Ledger)
  {
    if influencerId !in influencers then (Err(InfluencerNotFound), l)
    else CreateTransaction(l, IntendedPreference(influencers[influencerId]), newId, campaignId, brandId,
                           influencerId, amount, timestamp, random, paymentUrl)
  }

  /**
   * As written, every payment past the influencer lookup fails: the recorded
   * preference is always "bank", which the schema's enum refuses, so the save
   * throws and the session aborts, whatever preference the influencer stored.
   */
  lemma InitiateAlwaysRejected(l: Ledger, influencers: map<string, string>, newId: string, campaignId: string,
                               brandId: string, influencerId: string, amount: real, timestamp: nat,
                               random: string, paymentUrl: Option<string>)
    ensures var (r, after) := InitiateOutcome(l, influencers, newId, campaignId, brandId, influencerId, amount,
                                              timestamp, random, paymentUrl);
      && after == l
      && r == (if influencerId in influencers then Err(ValidationFailed) else Err(InfluencerNotFound))
  {
    assert "bank" !in SchemaPreferences;
  }

  /**
   * With the preference loaded, an influencer whose stored preference is unset
   * or one the schema accepts gets a pending transaction carrying that
   * preference (or the default), the 8% split, the `CAMPAIGN` reference and
   * the amount in kobo; a stored value outside the schema is a validation
   * error and a failed initialisation an error, both with nothing stored; and
   * the ledger stays valid.
   */
  lemma IntendedInitiateStores(l: Ledger, influencers: map<string, string>, newId: string, campaignId: string,
                               brandId: string, influencerId: string, amount: real, timestamp: nat,
                               random: string, paymentUrl: Option<string>)
    ensures var (r, after) := IntendedInitiateOutcome(l, influencers, newId, campaignId, brandId, influencerId,
                                                      amount, timestamp, random, paymentUrl);
      && (LedgerValid(l) ==> LedgerValid(after))
      && (r.Err? ==> after == l)
      && (influencerId !in influencers ==> r == Err(InfluencerNotFound))
      && (influencerId in influencers ==>
            var stored := influencers[influencerId];
            && (stored != "" && stored !in SchemaPreferences ==> r == Err(ValidationFailed))
            && ((stored == "" || stored in SchemaPreferences) ==>
                  && (paymentUrl.None? ==> r == Err(PaymentInitFailed))
                  && (paymentUrl.Some? ==>
                        && r.Ok?
                        && after.transactions == l.transactions + [r.value.transaction]
                        && var tx := r.value.transaction;
                        && tx.payoutPreference == (if stored == "" then "direct_bank" else stored)
                        && tx.payoutPreference in SchemaPreferences
                        && tx.totalAmount == amount && tx.platformCommission == amount * CommissionRate
                        && tx.influencerAmount == amount - amount * CommissionRate
                        && tx.paymentStatus == TxPending && tx.reference == r.value.reference
                        && r.value.reference == Paystack.GenerateReference(Some("CAMPAIGN"), timestamp, random)
                        && r.value.amountInKobo == Paystack.ToKobo(amount)
                        && r.value.paymentUrl == paymentUrl.value)))
  {
  }

  // ---- The service ----

  class PaymentService {
    var transactions: seq<Transaction>
    var wallets: seq<Wallet>
    var entries: seq<WalletEntry>
    var accounts: seq<BankAccount>
    var campaigns: map<string, CampaignTotals>
    /** The influencer collection: each influencer id to its stored `payoutPreference` ("" when unset). */
    var influencers: map<string, string>

    function Current(): Ledger
      reads this
    {
      Ledger(transactions, wallets, entries, accounts, campaigns)
    }

    constructor (influencers: map<string, string>, campaignIds: set<string>)
      ensures Current() == Ledger([], [], [], [], map c | c in campaignIds :: CampaignTotals(0.0, 0.0))
      ensures this.influencers == influencers && LedgerValid(Current())
    {
      transactions, wallets, entries, accounts := [], [], [], [];
      campaigns := map c | c in campaignIds :: CampaignTotals(0.0, 0.0);
      this.influencers := influencers;
    }

    /** Builds, validates and saves the transaction, and commits once the provider answered with a payment URL. */
    method CreateAndSave(preference: string, newId: string, campaignId: string, brandId: string, influencerId: string,
                         amount: real, timestamp: nat, random: string, paymentUrl: Option<string>)
      returns (r: Result<Initiated, PaymentError>)
      modifies this`transactions
      ensures (r, Current()) == CreateTransaction(old(Current()), preference, newId, campaignId, brandId, influencerId,
                                                  amount, timestamp, random, paymentUrl)
    {
      var split := SplitAmount(amount);
      var reference := Paystack.GenerateReference(Some("CAMPAIGN"), timestamp, random);
      if preference !in SchemaPreferences {
        return Err(ValidationFailed);
      }
      var tx := Transaction(newId, campaignId, brandId, influencerId, amount, split.platformCommission,
                            split.influencerAmount, preference, reference, None, TransferCompleted, TransferCompleted, TxPending);
      var saved := transactions;
      transactions := transactions + [tx];
      if paymentUrl.None? {
        transactions := saved;
        return Err(PaymentInitFailed);
      }
      r := Ok(Initiated(tx, paymentUrl.value, reference, Paystack.ToKobo(amount)));
    }

    /** `initiatePayment` as written (see `InitiateAlwaysRejected`). */
    method InitiatePayment(newId: string, campaignId: string, brandId: string, influencerId: string, amount: real,
                           timestamp: nat, random: string, paymentUrl: Option<string>)
      returns (r: Result<Initiated, PaymentError>)
      modifies this`transactions
      ensures (r, Current()) == InitiateOutcome(old(Current()), influencers, newId, campaignId, brandId, influencerId,
                                                amount, timestamp, random, paymentUrl)
    {
      if influencerId !in influencers {
        return Err(InfluencerNotFound);
      }
      var loaded := ProjectedPreference;
      r := CreateAndSave(RecordedPreference(loaded), newId, campaignId, brandId, influencerId, amount,
                         timestamp, random, paymentUrl);
    }

    method FindTransactionIndex(reference: string) returns (r: Option<nat>)
      ensures r == FindTransaction(transactions, reference)
    {
      var i := 0;
      while i < |transactions|
        invariant 0 <= i <= |transactions|
        invariant forall j :: 0 <= j < i ==> transactions[j].reference != reference
      {
        if transactions[i].reference == reference {
          FirstTransactionIs(transactions, reference, i);
          return Some(i);
        }
        i := i + 1;
      }
      return None;
    }

    method CreditWallet(i: nat, newWalletId: string)
      requires i < |transactions|
      modifies this`wallets, this`entries, this`transactions
      ensures Current() == Credited(old(Current()), i, newWalletId)
    {
      var tx := transactions[i];
      var found := FindWallet(wallets, tx.influencerId, "influencer");
      var k;
      if found.None? {
        k := |wallets|;
        wallets := wallets + [Wallet(newWalletId, tx.influencerId, "influencer", 0.0, 0.0, 0.0)];
      } else {
        k := found.value;
      }
      var w := wallets[k];
      var balanceBefore := w.balance;
      w := w.(balance := w.balance + tx.influencerAmount);
      w := w.(totalEarnings := w.totalEarnings + tx.influencerAmount);
      wallets := wallets[k := w];
      entries := entries + [WalletEntry(w.id, tx.influencerId, Credit, tx.influencerAmount, Some(tx.campaignId),
                                        balanceBefore, w.balance)];
      transactions := transactions[i := tx.(influencerPayoutStatus := TransferCompleted)];
    }

    method TransferToInfluencerBank(i: nat, bankOk: bool, newWalletId: string)
      requires i < |transactions|
      modifies this`wallets, this`entries, this`transactions
      ensures Current() == (if FindUsableAccount(old(accounts), old(transactions)[i].influencerId).None?
                            then Credited(old(Current()), i, newWalletId)
                            else if bankOk then old(Current()).(transactions := old(transactions)[i := old(transactions)[i].(influencerPayoutStatus := TransferCompleted)])
                            else Credited(old(Current()).(transactions := old(transactions)[i := old(transactions)[i].(influencerPayoutStatus := TransferFailed)]), i, newWalletId))
    {
      var bank := FindUsableAccount(accounts, transactions[i].influencerId);
      if bank.None? {
        CreditWallet(i, newWalletId);
        return;
      }
      if bankOk {
        transactions := transactions[i := transactions[i].(influencerPayoutStatus := TransferCompleted)];
      } else {
        transactions := transactions[i := transactions[i].(influencerPayoutStatus := TransferFailed)];
        CreditWallet(i, newWalletId);
      }
    }

    method HandlePaymentWebhook(reference: string, status: string, providerTxId: string,
                                commissionOk: bool, bankOk: bool, newWalletId: string)
      returns (r: Result<bool, PaymentError>)
      modifies this`wallets, this`entries, this`transactions, this`campaigns
      ensures (r, Current()) == WebhookOutcome(old(Current()), reference, status, providerTxId, commissionOk, bankOk, newWalletId)
    {
      var found := FindTransactionIndex(reference);
      if found.None? {
        return Err(TransactionNotFound);
      }
      var i := found.value;
      if status != "success" {
        transactions := transactions[i := transactions[i].(paymentStatus := TxFailed)];
        return Ok(false);
      }
      var tx := transactions[i];
      var saved := transactions;
      transactions := transactions[i := tx.(paymentStatus := Processing, paystackTransactionId := Some(providerTxId))];
      if !commissionOk {
        // The failed status written by the commission step is rolled back with the session.
        transactions := saved;
        return Err(CommissionTransferFailed);
      }
      transactions := transactions[i := transactions[i].(commissionTransferStatus := TransferCompleted)];
      ghost var l1 := Current();
      assert l1 == old(Current()).(transactions := old(transactions)[i := tx.(paymentStatus := Processing,
        paystackTransactionId := Some(providerTxId), commissionTransferStatus := TransferCompleted)]);
      if RoutesToBank(tx.payoutPreference) {
        TransferToInfluencerBank(i, bankOk, newWalletId);
      } else {
        CreditWallet(i, newWalletId);
      }
      assert Current() == PaidOut(l1, i, bankOk, newWalletId);
      transactions := transactions[i := transactions[i].(paymentStatus := Completed)];
      campaigns := AddToCampaign(campaigns, tx.campaignId, tx.totalAmount, tx.platformCommission);
      r := Ok(true);
    }

    method WithdrawFromWallet(userId: string, amount: real, transfer: Option<string>) returns (r: Result<string, PaymentError>)
      modifies this`wallets, this`entries
      ensures (r, Current()) == WithdrawOutcome(old(Current()), userId, amount, transfer)
    {
      var found := FindWallet(wallets, userId, "influencer");
      if found.None? {
        return Err(WalletNotFound);
      }
      var k := found.value;
      if wallets[k].balance < amount {
        return Err(InsufficientBalance);
      }
      if FindUsableAccount(accounts, userId).None? {
        return Err(NoVerifiedBankAccount);
      }
      if transfer.None? {
        return Err(WithdrawalTransferFailed);
      }
      var w := wallets[k];
      var balanceBefore := w.balance;
      w := w.(balance := w.balance - amount);
      w := w.(totalWithdrawals := w.totalWithdrawals + amount);
      wallets := wallets[k := w];
      entries := entries + [WalletEntry(w.id, userId, Debit, amount, None, balanceBefore, w.balance)];
      r := Ok(transfer.value);
    }

    method AddInfluencerBankAccount(influencerId: string, accountNumber: string, bankCode: string, bankName: string,
                                    resolvedName: Option<string>, recipientCode: Option<string>)
      returns (r: Result<BankAccount, PaymentError>)
      modifies this`accounts
      ensures (r, Current()) == AddAccountOutcome(old(Current()), influencerId, accountNumber, bankCode, bankName,
                                                  resolvedName, recipientCode)
    {
      if resolvedName.None? {
        return Err(InvalidBankAccount);
      }
      if recipientCode.None? {
        return Err(RecipientCreationFailed);
      }
      var i := 0;
      ghost var original := accounts;
      while i < |accounts|
        invariant 0 <= i <= |accounts| == |original|
        invariant forall j :: 0 <= j < i ==> accounts[j] == (if original[j].influencerId == influencerId then original[j].(isActive := false) else original[j])
        invariant forall j :: i <= j < |accounts| ==> accounts[j] == original[j]
      {
        if accounts[i].influencerId == influencerId {
          accounts := accounts[i := accounts[i].(isActive := false)];
        }
        i := i + 1;
      }
      assert accounts == Deactivated(original, influencerId);
      var b := BankAccount(influencerId, accountNumber, bankCode, resolvedName.value, bankName, recipientCode.value, true, true);
      accounts := accounts + [b];
      r := Ok(b);
    }
  }

  // ---- Properties of the ledger ----

  /** A credit adds the influencer amount to the influencer's wallet (a new wallet starts from zero) and logs it. */
  lemma CreditAddsAmount(l: Ledger, i: nat, newWalletId: string)
    requires i < |l.transactions|
    ensures var tx := l.transactions[i];
      var r := Credited(l, i, newWalletId);
      var k := FindWallet(r.wallets, tx.influencerId, "influencer");
      var before := if FindWallet(l.wallets, tx.influencerId, "influencer").None? then 0.0
                    else l.wallets[FindWallet(l.wallets, tx.influencerId, "influencer").value].balance;
      && k.Some?
      && r.wallets[k.value].balance == before + tx.influencerAmount
      && r.entries == l.entries + [r.entries[|l.entries|]]
      && r.entries[|l.entries|].balanceBefore == before
      && r.entries[|l.entries|].balanceAfter == r.wallets[k.value].balance
      && r.transactions[i].influencerPayoutStatus == TransferCompleted
      && r.accounts == l.accounts && r.campaigns == l.campaigns
  {
    var tx := l.transactions[i];
    var found := FindWallet(l.wallets, tx.influencerId, "influencer");
    if found.None? {
      WalletAppendFound(l.wallets, Wallet(newWalletId, tx.influencerId, "influencer", 0.0, 0.0, 0.0), tx.influencerId);
      var r := Credited(l, i, newWalletId);
      UpdatedWalletFound(l.wallets + [Wallet(newWalletId, tx.influencerId, "influencer", 0.0, 0.0, 0.0)],
                         |l.wallets|, r.wallets[|l.wallets|], tx.influencerId);
    } else {
      UpdatedWalletFound(l.wallets, found.value, Credited(l, i, newWalletId).wallets[found.value], tx.influencerId);
    }
  }

  lemma {:induction false} WalletAppendFound(ws: seq<Wallet>, w: Wallet, userId: string)
    requires FindWallet(ws, userId, "influencer").None? && w.userId == userId && w.userType == "influencer"
    ensures FindWallet(ws + [w], userId, "influencer") == Some(|ws|)
  {
    if ws == [] {
      assert ws + [w] == [w];
    } else {
      assert (ws + [w])[1..] == ws[1..] + [w];
      WalletAppendFound(ws[1..], w, userId);
    }
  }

  lemma {:induction false} UpdatedWalletFound(ws: seq<Wallet>, k: nat, w: Wallet, userId: string)
    requires FindWallet(ws, userId, "influencer") == Some(k) && w.userId == userId && w.userType == "influencer"
    ensures FindWallet(ws[k := w], userId, "influencer") == Some(k)
  {
    if k > 0 {
      assert ws[k := w][1..] == ws[1..][k - 1 := w];
      UpdatedWalletFound(ws[1..], k - 1, w, userId);
    }
  }

  /** Crediting keeps every wallet balanced and every entry consistent. */
  lemma CreditKeepsValid(l: Ledger, i: nat, newWalletId: string)
    requires LedgerValid(l) && i < |l.transactions|
    ensures LedgerValid(Credited(l, i, newWalletId))
  {
  }

  /** In a valid ledger every payout goes to the wallet, because no stored preference equals "bank". */
  lemma StoredTransactionsPayToWallet(l: Ledger, i: nat, bankOk: bool, newWalletId: string)
    requires LedgerValid(l) && i < |l.transactions|
    ensures PaidOut(l, i, bankOk, newWalletId) == Credited(l, i, newWalletId)
  {
    assert l.transactions[i].payoutPreference in SchemaPreferences;
  }

  /** For a bank preference the wallet is the fallback: no usable account or a failed transfer credits the wallet. */
  lemma BankRouteFallsBackToWallet(l: Ledger, i: nat, bankOk: bool, newWalletId: string)
    requires i < |l.transactions| && RoutesToBank(l.transactions[i].payoutPreference)
    ensures var tx := l.transactions[i];
      var r := PaidOut(l, i, bankOk, newWalletId);
      ((FindUsableAccount(l.accounts, tx.influencerId).Some? && bankOk)
        ==> r.entries == l.entries && r.wallets == l.wallets)
      && (!(FindUsableAccount(l.accounts, tx.influencerId).Some? && bankOk) ==> |r.entries| == |l.entries| + 1)
      && r.transactions[i].influencerPayoutStatus == TransferCompleted
  {
  }

  /** A reported failure marks the transaction failed and moves no money. */
  lemma FailedPaymentMovesNothing(l: Ledger, reference: string, status: string, providerTxId: string,
                                  commissionOk: bool, bankOk: bool, newWalletId: string)
    requires status != "success" && FindTransaction(l.transactions, reference).Some?
    ensures var (r, after) := WebhookOutcome(l, reference, status, providerTxId, commissionOk, bankOk, newWalletId);
      var i := FindTransaction(l.transactions, reference).value;
      && r == Ok(false)
      && after.wallets == l.wallets && after.entries == l.entries && after.campaigns == l.campaigns
      && after.transactions == l.transactions[i := l.transactions[i].(paymentStatus := TxFailed)]
  {
  }

  /** An unknown reference, or a failed commission transfer, changes nothing. */
  lemma WebhookErrorsChangeNothing(l: Ledger, reference: string, status: string, providerTxId: string,
                                   commissionOk: bool, bankOk: bool, newWalletId: string)
    ensures var (r, after) := WebhookOutcome(l, reference, status, providerTxId, commissionOk, bankOk, newWalletId);
      && (FindTransaction(l.transactions, reference).None? ==> r == Err(TransactionNotFound))
      && ((FindTransaction(l.transactions, reference).Some? && status == "success" && !commissionOk)
          ==> r == Err(CommissionTransferFailed))
      && (r.Err? ==> after == l)
  {
  }

  /** A completed payment marks the transaction completed and adds its amount and commission to the campaign. */
  lemma CompletedPaymentTotals(l: Ledger, reference: string, status: string, providerTxId: string,
                               commissionOk: bool, bankOk: bool, newWalletId: string)
    requires WebhookOutcome(l, reference, status, providerTxId, commissionOk, bankOk, newWalletId).0 == Ok(true)
    ensures var after := WebhookOutcome(l, reference, status, providerTxId, commissionOk, bankOk, newWalletId).1;
      var i := FindTransaction(l.transactions, reference).value;
      var tx := l.transactions[i];
      && status == "success" && commissionOk
      && after.transactions[i].paymentStatus == Completed
      && after.transactions[i].commissionTransferStatus == TransferCompleted
      && after.transactions[i].influencerPayoutStatus == TransferCompleted
      && (tx.campaignId in l.campaigns ==>
            after.campaigns[tx.campaignId].totalAmountPaid == l.campaigns[tx.campaignId].totalAmountPaid + tx.totalAmount
            && after.campaigns[tx.campaignId].totalCommissionPaid
               == l.campaigns[tx.campaignId].totalCommissionPaid + tx.platformCommission)
  {
  }

  /** The payment webhook keeps the ledger valid. */
  lemma WebhookKeepsValid(l: Ledger, reference: string, status: string, providerTxId: string,
                          commissionOk: bool, bankOk: bool, newWalletId: string)
    requires LedgerValid(l)
    ensures LedgerValid(WebhookOutcome(l, reference, status, providerTxId, commissionOk, bankOk, newWalletId).1)
  {
    match FindTransaction(l.transactions, reference)
    case None =>
    case Some(i) =>
      if status == "success" && commissionOk {
        var tx := l.transactions[i];
        var l1 := l.(transactions := l.transactions[i := tx.(paymentStatus := Processing,
                                                              paystackTransactionId := Some(providerTxId),
                                                              commissionTransferStatus := TransferCompleted)]);
        assert LedgerValid(l1);
        StoredTransactionsPayToWallet(l1, i, bankOk, newWalletId);
        CreditKeepsValid(l1, i, newWalletId);
      }
  }

  /** Withdrawal refuses a missing wallet, an amount above the balance, a missing account and a failed transfer. */
  lemma WithdrawRefusals(l: Ledger, userId: string, amount: real, transfer: Option<string>)
    ensures var (r, after) := WithdrawOutcome(l, userId, amount, transfer);
      var k := FindWallet(l.wallets, userId, "influencer");
      && (k.None? ==> r == Err(WalletNotFound))
      && (k.Some? && l.wallets[k.value].balance < amount ==> r == Err(InsufficientBalance))
      && ((k.Some? && amount <= l.wallets[k.value].balance && FindUsableAccount(l.accounts, userId).None?)
          ==> r == Err(NoVerifiedBankAccount))
      && (transfer.None? ==> r.Err? && after == l)
      && (r.Err? ==> after == l)
  {
  }

  /**
   * A successful withdrawal answers with the provider's transfer reference,
   * takes the amount off the balance, adds it to the withdrawals and logs a
   * debit from the old to the new balance; the exact balance may be withdrawn.
   */
  lemma WithdrawMovesAmount(l: Ledger, userId: string, amount: real, reference: string)
    requires FindWallet(l.wallets, userId, "influencer").Some?
    requires amount <= l.wallets[FindWallet(l.wallets, userId, "influencer").value].balance
    requires FindUsableAccount(l.accounts, userId).Some?
    ensures var (r, after) := WithdrawOutcome(l, userId, amount, Some(reference));
      var k := FindWallet(l.wallets, userId, "influencer").value;
      && r == Ok(reference)
      && after.wallets[k].balance == l.wallets[k].balance - amount >= 0.0
      && after.wallets[k].totalWithdrawals == l.wallets[k].totalWithdrawals + amount
      && after.wallets[k].totalEarnings == l.wallets[k].totalEarnings
      && after.entries == l.entries + [WalletEntry(l.wallets[k].id, userId, Debit, amount, None,
                                                   l.wallets[k].balance, after.wallets[k].balance)]
      && after.transactions == l.transactions && after.accounts == l.accounts
  {
  }

  /** Withdrawal keeps the ledger valid. */
  lemma WithdrawKeepsValid(l: Ledger, userId: string, amount: real, transfer: Option<string>)
    requires LedgerValid(l)
    ensures LedgerValid(WithdrawOutcome(l, userId, amount, transfer).1)
  {
  }

  /** A credit followed by a withdrawal of the same amount succeeds and restores the balance. */
  lemma CreditThenWithdraw(l: Ledger, i: nat, newWalletId: string, reference: string)
    requires LedgerValid(l) && i < |l.transactions|
    requires FindWallet(l.wallets, l.transactions[i].influencerId, "influencer").Some?
    requires FindUsableAccount(l.accounts, l.transactions[i].influencerId).Some?
    requires l.wallets[FindWallet(l.wallets, l.transactions[i].influencerId, "influencer").value].balance >= 0.0
    requires l.transactions[i].influencerAmount >= 0.0
    ensures var tx := l.transactions[i];
      var k := FindWallet(l.wallets, tx.influencerId, "influencer").value;
      var (r, after) := WithdrawOutcome(Credited(l, i, newWalletId), tx.influencerId, tx.influencerAmount, Some(reference));
      r == Ok(reference) && after.wallets[k].balance == l.wallets[k].balance
  {
    var tx := l.transactions[i];
    var k := FindWallet(l.wallets, tx.influencerId, "influencer").value;
    CreditAddsAmount(l, i, newWalletId);
    UpdatedWalletFound(l.wallets, k, Credited(l, i, newWalletId).wallets[k], tx.influencerId);
  }

  /** After adding an account it is the influencer's only active one and the one payouts use. */
  lemma {:induction false} NewAccountIsOnlyActive(l: Ledger, influencerId: string, accountNumber: string, bankCode: string,
                                                  bankName: string, resolvedName: Option<string>, recipientCode: Option<string>)
    requires AddAccountOutcome(l, influencerId, accountNumber, bankCode, bankName, resolvedName, recipientCode).0.Ok?
    ensures var after := AddAccountOutcome(l, influencerId, accountNumber, bankCode, bankName, resolvedName, recipientCode).1;
      && |after.accounts| == |l.accounts| + 1
      && (forall j :: 0 <= j < |l.accounts| && after.accounts[j].influencerId == influencerId ==> !after.accounts[j].isActive)
      && FindUsableAccount(after.accounts, influencerId) == Some(|l.accounts|)
  {
    var after := AddAccountOutcome(l, influencerId, accountNumber, bankCode, bankName, resolvedName, recipientCode).1;
    NoUsableInDeactivated(l.accounts, influencerId);
    UsableAppend(Deactivated(l.accounts, influencerId), after.accounts[|l.accounts|], influencerId);
  }

  lemma NoUsableInDeactivated(bs: seq<BankAccount>, influencerId: string)
    ensures FindUsableAccount(Deactivated(bs, influencerId), influencerId).None?
  {
  }

  lemma {:induction false} UsableAppend(bs: seq<BankAccount>, b: BankAccount, influencerId: string)
    requires FindUsableAccount(bs, influencerId).None? && IsUsableAccount(b, influencerId)
    ensures FindUsableAccount(bs + [b], influencerId) == Some(|bs|)
  {
    if bs == [] {
      assert bs + [b] == [b];
    } else {
      assert (bs + [b])[1..] == bs[1..] + [b];
      UsableAppend(bs[1..], b, influencerId);
    }
  }

  /** Other influencers' accounts are untouched by adding an account. */
  lemma AddAccountKeepsOthers(l: Ledger, influencerId: string, accountNumber: string, bankCode: string,
                              bankName: string, resolvedName: Option<string>, recipientCode: Option<string>)
    ensures var (r, after) := AddAccountOutcome(l, influencerId, accountNumber, bankCode, bankName, resolvedName, recipientCode);
      && (r.Err? ==> after == l)
      && (forall j :: 0 <= j < |l.accounts| && l.accounts[j].influencerId != influencerId ==> after.accounts[j] == l.accounts[j])
  {
  }

  /** Without a wallet the view is all zeros with no entries; with one it shows that wallet's figures. */
  lemma GetWalletDefault(l: Ledger, userId: string, userType: string)
    ensures var (view, shown) := GetWallet(l, userId, userType);
      && |shown| <= 20
      && (FindWallet(l.wallets, userId, userType).None? ==> view == WalletView(0.0, 0.0, 0.0) && shown == [])
      && (WalletsBalanced(l.wallets) ==> view.balance == view.totalEarnings - view.totalWithdrawals)
  {
  }

  lemma {:induction false} FirstTransactionIs(txs: seq<Transaction>, reference: string, i: nat)
    requires i < |txs| && txs[i].reference == reference
    requires forall j :: 0 <= j < i ==> txs[j].reference != reference
    ensures FindTransaction(txs, reference) == Some(i)
  {
    if i > 0 {
      FirstTransactionIs(txs[1..], reference, i - 1);
    }
  }
}
