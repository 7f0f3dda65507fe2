/** Admin adjustments of wallets: balances are the projection of immutable ledger entries. */
module Wallets {
  import opened Ledger

  datatype WalletId = WalletId(user: nat, currency: string)

  datatype Reply = Adjusted(balance: int) | InvalidInput | Insufficient

  datatype Books = Books(balances: map<WalletId, int>, transactions: seq<seq<Entry>>)

  /** What an entry adds to a wallet: credits raise it, debits lower it. */
  function Effect(e: Entry, w: WalletId): int {
    if e.holder == WalletOf(w.user) && e.currency == w.currency then -Signed(e) else 0
  }

  function Effects(entries: seq<Entry>, w: WalletId): int {
    if |entries| == 0 then 0 else Effect(entries[0], w) + Effects(entries[1..], w)
  }

  /** Credits minus debits of a wallet over the whole ledger. */
  function Projection(transactions: seq<seq<Entry>>, w: WalletId): int {
    if |transactions| == 0 then 0 else Effects(transactions[0], w) + Projection(transactions[1..], w)
  }

  function Current(balances: map<WalletId, int>, w: WalletId): int { if w in balances then balances[w] else 0 }

  /** The two entries of an adjustment, with the direction and the magnitude as computed in 64 bits. */
  function AdjustmentEntries(w: WalletId, amount: int): seq<Entry> {
    if amount < 0
    then [Entry(WalletOf(w.user), "debit", Wrap(-amount), w.currency),
          Entry(PlatformAdjustment, "credit", Wrap(-amount), w.currency)]
    else [Entry(WalletOf(w.user), "credit", amount, w.currency), Entry(PlatformAdjustment, "debit", amount, w.currency)]
  }

  predicate Acceptable(balance: int, amount: int) { 0 <= balance + amount <= MAX_INT64 }

  ghost predicate BooksOk(b: Books) {
    && (forall w :: w in b.balances ==> 0 <= b.balances[w] <= MAX_INT64)
    && (forall w :: Current(b.balances, w) == Projection(b.transactions, w))
    && (forall i :: 0 <= i < |b.transactions| ==> AllValid(b.transactions[i]) && Balanced(b.transactions[i]))
  }

  lemma {:induction false} ProjectionAppend(ts: seq<seq<Entry>>, t: seq<Entry>, w: WalletId)
    ensures Projection(ts + [t], w) == Projection(ts, w) + Effects(t, w)
  {
    if |ts| == 0 {
      assert ts + [t] == [t];
    } else {
      assert (ts + [t])[1..] == ts[1..] + [t];
      ProjectionAppend(ts[1..], t, w);
    }
  }

  /** A non-wrapping adjustment moves its own wallet by the amount and no other wallet. */
  lemma AdjustmentEffect(w: WalletId, amount: int, other: WalletId)
    requires MIN_INT64 < amount <= MAX_INT64
    ensures Effects(AdjustmentEntries(w, amount), other) == if other == w then amount else 0
    ensures AllValid(AdjustmentEntries(w, amount)) && Balanced(AdjustmentEntries(w, amount))
  {
    if amount < 0 { WrapFits(-amount); }
    var entries := AdjustmentEntries(w, amount);
    var last := entries[1..];
    assert last[0] == entries[1] && last[1..] == [];
    assert Effects(last, other) == Effect(entries[1], other) + Effects([], other);
    assert Effects(entries, other) == Effect(entries[0], other) + Effect(entries[1], other);
    PairBalances(entries[0].holder, entries[1].holder, entries[0].amount, w.currency, amount >= 0);
  }

  /** The 64-bit sum is negative exactly when the true sum leaves the range of balances. */
  lemma WrappedSumIsExact(balance: int, amount: int)
    requires 0 <= balance <= MAX_INT64 && IsInt64(amount)
    ensures Wrap(balance + amount) < 0 <==> !Acceptable(balance, amount)
  {
  }

  function Adjust(b: Books, w: WalletId, amount: int): Books {
    Books(b.balances[w := Current(b.balances, w) + amount], b.transactions + [AdjustmentEntries(w, amount)])
  }

  lemma AdjustKeepsBooks(b: Books, w: WalletId, amount: int)
    requires BooksOk(b) && IsInt64(amount) && Acceptable(Current(b.balances, w), amount)
    ensures BooksOk(Adjust(b, w, amount))
  {
    var t := Adjust(b, w, amount);
    assert amount > MIN_INT64;
    forall v ensures Current(t.balances, v) == Projection(t.transactions, v) {
      ProjectionAppend(b.transactions, AdjustmentEntries(w, amount), v);
      AdjustmentEffect(w, amount, v);
    }
    AdjustmentEffect(w, amount, w);
  }

  class Accounts {
    var balances: map<WalletId, int>
    var transactions: seq<seq<Entry>>

    function View(): Books reads this { Books(balances, transactions) }

    ghost predicate Valid() reads this { BooksOk(View()) }

    constructor ()
      ensures Valid() && View() == Books(map[], [])
    {
      balances, transactions := map[], [];
    }

    /** Refused exactly when the true new balance would be negative or above the 64-bit range. */
    method AdjustWallet(w: WalletId, amount: int) returns (reply: Reply)
      requires Valid() && IsInt64(amount)
      modifies this
      ensures Valid()
      ensures reply == InvalidInput <==> |w.currency| != 3 || amount == 0
      ensures reply == Insufficient <==> reply != InvalidInput && !Acceptable(Current(old(balances), w), amount)
      ensures View() == Handle(old(View()), Request(w, amount))
      ensures reply.Adjusted? ==> w in balances && reply.balance == balances[w] == Current(old(balances), w) + amount
    {
      if |w.currency| != 3 || amount == 0 { return InvalidInput; }
      var before := balances;
      if w !in balances { balances := balances[w := 0]; }
      var current := balances[w];
      WrappedSumIsExact(current, amount);
      if Wrap(current + amount) < 0 {
        balances := before;
        return Insufficient;
      }
      AdjustKeepsBooks(Books(before, transactions), w, amount);
      var absolute, wallet, system := amount, "credit", "debit";
      if amount < 0 {
        absolute, wallet, system := Wrap(-amount), "debit", "credit";
      }
      transactions := transactions
        + [[Entry(WalletOf(w.user), wallet, absolute, w.currency),
            Entry(PlatformAdjustment, system, absolute, w.currency)]];
      balances := balances[w := balances[w] + amount];
      assert View() == Adjust(old(View()), w, amount);
      reply := Adjusted(balances[w]);
    }
  }

  /** A request to adjust a wallet; all others are refused and change nothing. */
  datatype Request = Request(wallet: WalletId, amount: int)

  function Handle(b: Books, r: Request): Books {
    if |r.wallet.currency| != 3 || r.amount == 0 || !Acceptable(Current(b.balances, r.wallet), r.amount)
    then b else Adjust(b, r.wallet, r.amount)
  }

  function HandleAll(b: Books, rs: seq<Request>): Books
    decreases |rs|
  {
    if |rs| == 0 then b else HandleAll(Handle(b, rs[0]), rs[1..])
  }

  /**
   * The wallet is its ledger projection: over every run of adjustments each balance equals credits
   * minus debits, is never negative nor above the 64-bit range, and every transaction balances.
   */
  lemma {:induction false} WalletIsProjection(b: Books, rs: seq<Request>)
    requires BooksOk(b) && forall i :: 0 <= i < |rs| ==> IsInt64(rs[i].amount)
    ensures BooksOk(HandleAll(b, rs))
    decreases |rs|
  {
    if |rs| != 0 {
      var r := rs[0];
      if Handle(b, r) != b { AdjustKeepsBooks(b, r.wallet, r.amount); }
      WalletIsProjection(Handle(b, r), rs[1..]);
    }
  }

  /** The magnitude of MinInt64 wraps to a negative amount, but that request is always refused. */
  lemma MinAmountIsRefused(b: Books, w: WalletId)
    requires BooksOk(b)
    ensures Wrap(-MIN_INT64) < 0 && Handle(b, Request(w, MIN_INT64)) == b
  {
    assert 0 <= Current(b.balances, w) <= MAX_INT64;
  }
}
