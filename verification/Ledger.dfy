/** Double-entry bookkeeping: the balance check, and wallets as a projection of their entries. */
module Ledger {

  const TWO64: int := 0x1_0000_0000_0000_0000
  const TWO63: int := 0x8000_0000_0000_0000
  const MAX_INT64: int := TWO63 - 1
  const MIN_INT64: int := -TWO63

  predicate IsInt64(x: int) { MIN_INT64 <= x <= MAX_INT64 }

  /** Two's complement wrap-around of a 64-bit result. */
  function Wrap(x: int): (r: int)
    ensures IsInt64(r)
  {
    (x + TWO63) % TWO64 - TWO63
  }

  datatype Holder = GatewayCash(payment: nat) | Receivable(invoice: nat) | WalletOf(user: nat) | PlatformAdjustment

  datatype Entry = Entry(holder: Holder, direction: string, amount: int, currency: string)

  // ---------------------------------------------------------------- specification

  predicate EntryValid(e: Entry) { e.amount >= 0 && (e.direction == "debit" || e.direction == "credit") }

  function Signed(e: Entry): int { if e.direction == "debit" then e.amount else -e.amount }

  /** Debits minus credits of one currency. */
  function Net(entries: seq<Entry>, currency: string): int {
    if |entries| == 0 then 0
    else (if entries[0].currency == currency then Signed(entries[0]) else 0) + Net(entries[1..], currency)
  }

  function Total(entries: seq<Entry>): int {
    if |entries| == 0 then 0 else entries[0].amount + Total(entries[1..])
  }

  predicate AllValid(entries: seq<Entry>) {
    forall i :: 0 <= i < |entries| ==> EntryValid(entries[i])
  }

  ghost predicate Balanced(entries: seq<Entry>) {
    forall c :: Net(entries, c) == 0
  }

  /** What 64-bit accumulation can tell apart from balanced. */
  ghost predicate BalancedModulo(entries: seq<Entry>) {
    forall c :: Net(entries, c) % TWO64 == 0
  }

  lemma {:induction false} NetAppend(a: seq<Entry>, e: Entry, c: string)
    ensures Net(a + [e], c) == Net(a, c) + if e.currency == c then Signed(e) else 0
  {
    if |a| == 0 {
      assert a + [e] == [e];
    } else {
      assert (a + [e])[1..] == a[1..] + [e];
      NetAppend(a[1..], e, c);
    }
  }

  function Share(e: Entry, c: string): int { if e.currency == c then Signed(e) else 0 }

  lemma NetPair(a: Entry, b: Entry, c: string)
    ensures Net([a, b], c) == Share(a, c) + Share(b, c)
  {
    assert [a, b] == [a] + [b] && [a] == [] + [a];
    NetAppend([], a, c);
    NetAppend([a], b, c);
  }

  lemma {:induction false} NetBound(entries: seq<Entry>, c: string)
    requires AllValid(entries)
    ensures -Total(entries) <= Net(entries, c) <= Total(entries)
  {
    if |entries| != 0 {
      assert EntryValid(entries[0]);
      NetBound(entries[1..], c);
    }
  }

  lemma WrapStep(x: int, y: int)
    ensures Wrap(Wrap(x) + y) == Wrap(x + y)
  {
  }

  lemma WrapZero(x: int)
    ensures Wrap(x) == 0 <==> x % TWO64 == 0
  {
  }

  lemma WrapFits(x: int)
    requires IsInt64(x)
    ensures Wrap(x) == x
  {
  }

  // ---------------------------------------------------------------- the balance check

  ghost function Currencies(entries: seq<Entry>): set<string> {
    set i | 0 <= i < |entries| :: entries[i].currency
  }

  function Balance(balances: map<string, int>, c: string): int { if c in balances then balances[c] else 0 }

  /** The accumulated map holds the wrapped net of exactly the currencies seen so far. */
  ghost predicate Accumulated(balances: map<string, int>, entries: seq<Entry>) {
    balances.Keys == Currencies(entries) && forall c :: Balance(balances, c) == Wrap(Net(entries, c))
  }

  lemma NothingAccumulated()
    ensures Accumulated(map[], [])
  {
    forall c ensures Net([], c) == 0 == Wrap(0) {}
  }

  lemma AccumulateOne(balances: map<string, int>, entries: seq<Entry>, e: Entry)
    requires Accumulated(balances, entries)
    ensures Accumulated(balances[e.currency := Wrap(Balance(balances, e.currency) + Signed(e))], entries + [e])
  {
    var after := balances[e.currency := Wrap(Balance(balances, e.currency) + Signed(e))];
    assert Currencies(entries + [e]) == Currencies(entries) + {e.currency} by { CurrenciesAppend(entries, e); }
    forall c ensures Balance(after, c) == Wrap(Net(entries + [e], c)) {
      NetAppend(entries, e, c);
      WrapStep(Net(entries, c), Signed(e));
    }
  }

  lemma CurrenciesAppend(entries: seq<Entry>, e: Entry)
    ensures Currencies(entries + [e]) == Currencies(entries) + {e.currency}
  {
    forall c | c in Currencies(entries) + {e.currency} ensures c in Currencies(entries + [e]) {
      if c == e.currency { assert (entries + [e])[|entries|].currency == c; }
      else {
        var i :| 0 <= i < |entries| && entries[i].currency == c;
        assert (entries + [e])[i].currency == c;
      }
    }
  }

  lemma AcceptedIff(balances: map<string, int>, entries: seq<Entry>)
    requires Accumulated(balances, entries)
    ensures (forall c :: c in balances ==> balances[c] == 0) <==> BalancedModulo(entries)
  {
    forall c ensures Balance(balances, c) == 0 <==> Net(entries, c) % TWO64 == 0 { WrapZero(Net(entries, c)); }
    if forall c :: c in balances ==> balances[c] == 0 {
      forall c ensures Net(entries, c) % TWO64 == 0 { assert Balance(balances, c) == 0; }
    } else {
      var c :| c in balances && balances[c] != 0;
      assert Balance(balances, c) != 0;
    }
  }

  /** The check accepts exactly the valid lists whose nets vanish modulo 2^64. */
  method ValidateBalanced(entries: seq<Entry>) returns (ok: bool)
    ensures ok <==> AllValid(entries) && BalancedModulo(entries)
  {
    hide Net, Wrap, BalancedModulo, Currencies;
    var balances: map<string, int> := map[];
    var i := 0;
    NothingAccumulated();
    while i < |entries|
      invariant i <= |entries| && AllValid(entries[..i]) && Accumulated(balances, entries[..i])
    {
      var entry := entries[i];
      if entry.amount < 0 {
        assert !EntryValid(entries[i]);
        return false;
      }
      AccumulateOne(balances, entries[..i], entry);
      assert entries[..i + 1] == entries[..i] + [entry];
      var balance := Balance(balances, entry.currency);
      if entry.direction == "debit" {
        balances := balances[entry.currency := Wrap(balance + entry.amount)];
      } else if entry.direction == "credit" {
        balances := balances[entry.currency := Wrap(balance - entry.amount)];
      } else {
        assert !EntryValid(entries[i]);
        return false;
      }
      i := i + 1;
    }
    assert entries[..i] == entries;
    AcceptedIff(balances, entries);
    ok := AllZero(balances);
  }

  /** The second loop: no currency is left with a balance. */
  method AllZero(balances: map<string, int>) returns (ok: bool)
    ensures ok <==> forall c :: c in balances ==> balances[c] == 0
  {
    var rest := balances.Keys;
    while rest != {}
      invariant rest <= balances.Keys && forall c :: c in balances && c !in rest ==> balances[c] == 0
      decreases |rest|
    {
      var c :| c in rest;
      if balances[c] != 0 { return false; }
      rest := rest - {c};
    }
    ok := true;
  }

  /**
   * For every list whose total is below 2^64, in particular whenever it fits in an int64,
   * acceptance means exact balance per currency.
   */
  lemma ExactWhenTotalFits(entries: seq<Entry>)
    requires AllValid(entries) && Total(entries) < TWO64
    ensures BalancedModulo(entries) <==> Balanced(entries)
  {
    forall c ensures Net(entries, c) % TWO64 == 0 <==> Net(entries, c) == 0 { NetBound(entries, c); }
  }

  /** The bound is tight: three debits and no credit, 2^64 in all, are accepted. */
  lemma ModuloIsNotExact()
    ensures var e := (x: int) => Entry(PlatformAdjustment, "debit", x, "USD");
            var entries := [e(MAX_INT64), e(MAX_INT64), e(2)];
            AllValid(entries) && Total(entries) == TWO64 && BalancedModulo(entries) && !Balanced(entries)
  {
    var e := (x: int) => Entry(PlatformAdjustment, "debit", x, "USD");
    var entries := [e(MAX_INT64), e(MAX_INT64), e(2)];
    assert entries[1..] == [e(MAX_INT64), e(2)];
    forall c ensures Net(entries, c) == if c == "USD" then TWO64 else 0 { NetPair(e(MAX_INT64), e(2), c); }
    assert Net(entries, "USD") == TWO64;
    assert entries[1..][1..] == [e(2)] && [e(2)][1..] == [] && Total([e(2)]) == 2;
    assert Total(entries[1..]) == MAX_INT64 + 2;
  }

  /** Debits minus credits of one holder. */
  function HolderNet(entries: seq<Entry>, holder: Holder): int {
    if |entries| == 0 then 0
    else (if entries[0].holder == holder then Signed(entries[0]) else 0) + HolderNet(entries[1..], holder)
  }

  lemma HolderNetPair(a: Entry, b: Entry, h: Holder)
    ensures HolderNet([a, b], h) == (if a.holder == h then Signed(a) else 0) + if b.holder == h then Signed(b) else 0
  {
    assert [a, b][1..] == [b] && [b][1..] == [];
    assert HolderNet([b], h) == (if b.holder == h then Signed(b) else 0) + HolderNet([], h);
  }

  /** A debit and a credit of the same amount always pass. */
  lemma PairBalances(a: Holder, b: Holder, amount: int, currency: string, flip: bool)
    requires amount >= 0
    ensures var entries := [Entry(a, if flip then "credit" else "debit", amount, currency),
                            Entry(b, if flip then "debit" else "credit", amount, currency)];
            AllValid(entries) && Balanced(entries)
  {
    var entries := [Entry(a, if flip then "credit" else "debit", amount, currency),
                    Entry(b, if flip then "debit" else "credit", amount, currency)];
    forall c ensures Net(entries, c) == 0 { NetPair(entries[0], entries[1], c); }
  }
}
