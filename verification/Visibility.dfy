/**
 Which transactions of a generated chain the explorer never reports for the wallet's addresses, although they
 spend from them, and what a finished download therefore contains.
 */
module Visibility {
  import opened Outcomes
  import opened Ledger
  import opened Wallet
  import opened WalletHistory
  import opened CommandEffects
  import opened Explorer
  import opened Paging

  ghost predicate Missed(addresses: set<string>, t: Transaction) {
    Touches(addresses, t) && !Matches(addresses, t)
  }

  ghost predicate OfWallet(w: World, addresses: set<string>) {
    forall a :: a in addresses ==> w.mine(a)
  }

  /** Receptions pay the wallet and spend from outside; commands of another kind move nothing. */
  lemma NotSendIsSeen(w: World, fee: int, commands: seq<Command>, n: nat, addresses: set<string>)
    requires w.Valid() && Run(w, fee, commands).Some? && n < |commands| && OfWallet(w, addresses)
    requires !commands[n].Send?
    ensures !SpendsFrom(addresses, TransactionOf(w, fee, commands, n))
  {
    BlockOfCommand(w, fee, commands, n);
  }

  /** The change of a send, if it leaves any, is its second output; the first never is the wallet's. */
  lemma SendParts(w: World, fee: int, commands: seq<Command>, n: nat)
    requires Run(w, fee, commands).Some? && n < |commands| && commands[n].Send?
    ensures var t, before := TransactionOf(w, fee, commands, n), Run(w, fee, commands[..n]);
      && before.Some?
      && t.inputs <= before.value.utxos && (before.value.utxos != [] ==> t.inputs != [])
      && 1 <= |t.outputs| <= 2 && t.outputs[0].address == w.root
      && (|t.outputs| == 1 <==> Total(t.inputs) == commands[n].amount + fee)
      && (|t.outputs| == 2 ==> t.outputs[1].address == w.internal(before.value.curChange))
  {
    SendPays(w, fee, commands, n);
  }

  lemma MissedSend(addresses: set<string>, t: Transaction)
    requires 1 <= |t.outputs| <= 2 && t.outputs[0].address !in addresses
    ensures Missed(addresses, t) <==> SpendsFrom(addresses, t) && (|t.outputs| == 1 || t.outputs[1].address !in addresses)
  {
    assert |t.outputs| == 2 ==> t.outputs[1] in t.outputs;
  }

  /** For any addresses of the wallet, a transaction is missed exactly if it is a send that spends from them
      and leaves no change on them. */
  lemma MissedExactlyWhen(w: World, fee: int, commands: seq<Command>, n: nat, addresses: set<string>)
    requires w.Valid() && Run(w, fee, commands).Some? && n < |commands| && OfWallet(w, addresses)
    ensures var t := TransactionOf(w, fee, commands, n);
      Missed(addresses, t) <==>
        && commands[n].Send?
        && SpendsFrom(addresses, t)
        && (Total(t.inputs) == commands[n].amount + fee || (|t.outputs| == 2 && t.outputs[1].address !in addresses))
  {
    if commands[n].Send? {
      assert w.root !in addresses;
      SendParts(w, fee, commands, n);
      MissedSend(addresses, TransactionOf(w, fee, commands, n));
    } else {
      NotSendIsSeen(w, fee, commands, n, addresses);
    }
  }

  // ---------------------------------------------------------------------------------------------
  // A client that knows all of the wallet's addresses
  // ---------------------------------------------------------------------------------------------

  /** All addresses of the wallet's outputs created so far are wanted, and only addresses of the wallet. */
  ghost predicate Covers(w: World, s: State, addresses: set<string>) {
    OfWallet(w, addresses) && forall o :: o in Created(w, s.blocks) ==> o.address in addresses
  }

  lemma {:induction false} MineContains(w: World, outputs: seq<Output>, o: Output)
    requires o in outputs && w.mine(o.address)
    ensures o in Mine(w, outputs)
  {
    if outputs[0] != o {
      MineContains(w, outputs[1..], o);
    }
  }

  lemma {:induction false} CreatedInBlock(w: World, blocks: seq<Block>, k: nat, o: Output)
    requires k < |blocks| && o in CreatedIn(w, blocks[k].transactions)
    ensures o in Created(w, blocks)
  {
    if k < |blocks| - 1 {
      CreatedInBlock(w, blocks[..|blocks| - 1], k, o);
    }
  }

  lemma {:induction false} CreatedEarlier(w: World, blocks: seq<Block>, k: nat, o: Output)
    requires k <= |blocks| && o in Created(w, blocks[..k])
    ensures o in Created(w, blocks)
  {
    if k < |blocks| {
      assert blocks[..|blocks| - 1][..k] == blocks[..k];
      CreatedEarlier(w, blocks[..|blocks| - 1], k, o);
    } else {
      assert blocks[..k] == blocks;
    }
  }

  lemma InOneTransaction(w: World, t: Transaction)
    ensures CreatedIn(w, [t]) == Mine(w, t.outputs) && SpentIn(w, [t]) == Mine(w, t.inputs)
  {
    assert [t][1..] == [];
    assert Mine(w, t.outputs) + [] == Mine(w, t.outputs);
    assert Mine(w, t.inputs) + [] == Mine(w, t.inputs);
  }

  /** The wallet's part of the inputs and outputs of every transaction is on covered addresses. */
  lemma CoversTransaction(w: World, fee: int, commands: seq<Command>, n: nat, addresses: set<string>, o: Output)
    requires w.Valid() && Run(w, fee, commands).Some? && n < |commands|
    requires Covers(w, Run(w, fee, commands).value, addresses) && w.mine(o.address)
    requires var t := TransactionOf(w, fee, commands, n); o in t.inputs || o in t.outputs
    ensures o.address in addresses
  {
    var t, blocks := TransactionOf(w, fee, commands, n), Run(w, fee, commands).value.blocks;
    OnlyTransaction(w, fee, commands, n);
    InOneTransaction(w, t);
    if o in t.outputs {
      MineContains(w, t.outputs, o);
      CreatedInBlock(w, blocks, n + 1, o);
    } else {
      MineContains(w, t.inputs, o);
      SpentEarlier(w, fee, commands, n + 1);
      CreatedEarlier(w, blocks, n + 1, o);
    }
  }

  /** The send spends something and uses up exactly what it picked. */
  ghost predicate ExactSend(c: Command, fee: int, t: Transaction) {
    c.Send? && t.inputs != [] && Total(t.inputs) == c.amount + fee
  }

  /** For all of the wallet's addresses, the missed transactions are exactly the sends without change. */
  lemma MissedAreTheExactSends(w: World, fee: int, commands: seq<Command>, n: nat, addresses: set<string>)
    requires w.Valid() && Run(w, fee, commands).Some? && n < |commands|
    requires Covers(w, Run(w, fee, commands).value, addresses)
    ensures var t := TransactionOf(w, fee, commands, n);
      Missed(addresses, t) <==> ExactSend(commands[n], fee, t)
  {
    var t := TransactionOf(w, fee, commands, n);
    MissedExactlyWhen(w, fee, commands, n, addresses);
    if commands[n].Send? {
      SendParts(w, fee, commands, n);
      SpentThenUnspent(w, fee, commands[..n]);
      if |t.outputs| == 2 {
        CoversTransaction(w, fee, commands, n, addresses, t.outputs[1]);
      }
      if t.inputs != [] {
        assert t.inputs[0] in t.inputs && w.mine(t.inputs[0].address);
        CoversTransaction(w, fee, commands, n, addresses, t.inputs[0]);
      }
    }
  }

  // ---------------------------------------------------------------------------------------------
  // What a finished download contains
  // ---------------------------------------------------------------------------------------------

  lemma {:induction false} MatchesAmongAre(addresses: set<string>, transactions: seq<Transaction>, n: nat, t: Transaction)
    requires n <= |transactions|
    ensures t in MatchesAmong(addresses, transactions, n) <==> t in transactions[..n] && Matches(addresses, t)
  {
    if n > 0 {
      MatchesAmongAre(addresses, transactions, n - 1, t);
      assert transactions[..n] == transactions[..n - 1] + [transactions[n - 1]];
    }
  }

  lemma {:induction false} OnlyMatches(addresses: set<string>, blocks: seq<Block>, begin: nat, end: nat, t: Transaction)
    requires end <= |blocks| && t in MatchesIn(addresses, blocks, begin, end)
    ensures Matches(addresses, t)
    decreases end
  {
    var last := blocks[end - 1].transactions;
    MatchesAmongAre(addresses, last, |last|, t);
    if t in MatchesIn(addresses, blocks, begin, end - 1) {
      OnlyMatches(addresses, blocks, begin, end - 1, t);
    }
  }

  /** A transaction in the range is among its matches exactly if it matches. */
  lemma {:induction false} MatchesInAre(addresses: set<string>, blocks: seq<Block>, begin: nat, end: nat, k: nat, t: Transaction)
    requires begin <= k < end <= |blocks| && t in blocks[k].transactions
    ensures t in MatchesIn(addresses, blocks, begin, end) <==> Matches(addresses, t)
    decreases end
  {
    if t in MatchesIn(addresses, blocks, begin, end) {
      OnlyMatches(addresses, blocks, begin, end, t);
    } else if k < end - 1 {
      MatchesInAre(addresses, blocks, begin, end - 1, k, t);
    } else {
      var last := blocks[k].transactions;
      MatchesAmongAre(addresses, last, |last|, t);
      assert last[..|last|] == last;
    }
  }

  lemma DownloadHasTheMatches(addresses: set<string>, blocks: seq<Block>, limit: int, client: Client, start: nat, k: nat, t: Transaction)
    requires AlwaysDownloads(blocks) && limit >= 2 && AsksFromLast(blocks, client)
    requires start <= k < |blocks| && t in blocks[k].transactions
    ensures t in Download(addresses, blocks, limit, client, start, |blocks| - start).received <==> Matches(addresses, t)
  {
    assert DownloadsAll(addresses, blocks, limit, client, start);
    MatchesInAre(addresses, blocks, start, |blocks|, k, t);
  }

  lemma DownloadOfRun(w: World, fee: int, commands: seq<Command>, blocks: seq<Block>, addresses: set<string>,
                      limit: int, client: Client, start: nat, n: nat)
    requires w.Valid() && Run(w, fee, commands).Some? && Run(w, fee, commands).value.blocks == blocks
    requires start <= n + 1 <= |commands| && limit >= 2 && AsksFromLast(blocks, client)
    ensures var t := TransactionOf(w, fee, commands, n);
      t in Download(addresses, blocks, limit, client, start, |blocks| - start).received <==> Matches(addresses, t)
  {
    assert AlwaysDownloads(blocks) by {
      GeneratedChainsDownload(w, fee, commands);
    }
    OnlyTransaction(w, fee, commands, n);
    DownloadHasTheMatches(addresses, blocks, limit, client, start, n + 1, TransactionOf(w, fee, commands, n));
  }

  /** Command `n` pays a wanted address of the wallet: it is a reception, and the next external address is
      wanted, or a send that leaves change, and the next change address is. */
  ghost predicate PaysWanted(w: World, fee: int, commands: seq<Command>, n: nat, addresses: set<string>)
    requires Run(w, fee, commands).Some? && n < |commands|
  {
    RunPrefix(w, fee, commands, n);
    || (commands[n].Get? && w.external(Receptions(commands[..n])) in addresses)
    || (commands[n].Send? && Total(TransactionOf(w, fee, commands, n).inputs) > commands[n].amount + fee
        && w.internal(ChangesLeft(w, fee, commands[..n])) in addresses)
  }

  lemma MatchesIsPaysWanted(w: World, fee: int, commands: seq<Command>, n: nat, addresses: set<string>)
    requires w.Valid() && Run(w, fee, commands).Some? && n < |commands| && OfWallet(w, addresses)
    ensures Matches(addresses, TransactionOf(w, fee, commands, n)) <==> PaysWanted(w, fee, commands, n, addresses)
  {
    var t := TransactionOf(w, fee, commands, n);
    assert w.root !in addresses;
    if commands[n].Get? {
      ReceptionIs(w, fee, commands, n);
      assert t.outputs[0] in t.outputs;
    } else if commands[n].Send? {
      SendIs(w, fee, commands, n);
      assert t.outputs[0] in t.outputs && (|t.outputs| == 2 ==> t.outputs[1] in t.outputs);
    } else {
      OtherIs(w, fee, commands, n);
    }
  }

  /** For any addresses of the wallet, a download with pages of two or more has received, of the transactions
      from its start on, exactly the receptions on wanted addresses and the sends whose change is on one. */
  lemma DownloadHasWhatPays(w: World, fee: int, commands: seq<Command>, s: State, addresses: set<string>,
                            limit: int, client: Client, start: nat, n: nat)
    requires w.Valid() && Run(w, fee, commands) == Some(s) && start <= n + 1 <= |commands| && limit >= 2
    requires OfWallet(w, addresses) && AsksFromLast(s.blocks, client)
    ensures TransactionOf(w, fee, commands, n) in Download(addresses, s.blocks, limit, client, start, |s.blocks| - start).received
            <==> PaysWanted(w, fee, commands, n, addresses)
  {
    DownloadOfRun(w, fee, commands, s.blocks, addresses, limit, client, start, n);
    MatchesIsPaysWanted(w, fee, commands, n, addresses);
  }

  /** A download for all of the wallet's addresses, with pages of two or more, has received, of the
      transactions from its start on, exactly those that pay or spend from the wallet, but for the sends
      without change. */
  lemma DownloadLacksTheExactSends(w: World, fee: int, commands: seq<Command>, s: State, addresses: set<string>,
                                   limit: int, client: Client, start: nat, n: nat)
    requires w.Valid() && Run(w, fee, commands) == Some(s) && start <= n + 1 <= |commands| && limit >= 2
    requires Covers(w, s, addresses) && AsksFromLast(s.blocks, client)
    ensures var t := TransactionOf(w, fee, commands, n);
      t in Download(addresses, s.blocks, limit, client, start, |s.blocks| - start).received
      <==> Touches(addresses, t) && !ExactSend(commands[n], fee, t)
  {
    DownloadOfRun(w, fee, commands, s.blocks, addresses, limit, client, start, n);
    MissedAreTheExactSends(w, fee, commands, n, addresses);
  }

  /** The shortest such history: receive an amount, and send all of it on. */
  lemma SendingAllIsMissed(w: World, fee: int, amount: int)
    requires w.Valid()
    ensures var commands := [Get(amount), Send(amount - fee)];
      && Run(w, fee, commands).Some?
      && Missed({w.external(0)}, TransactionOf(w, fee, commands, 1))
  {
    var commands := [Get(amount), Send(amount - fee)];
    var first := Receive(w, fee, INITIAL, amount);
    assert commands[..1] == [Get(amount)] && [Get(amount)][..0] == [];
    assert Run(w, fee, commands[..1]) == Some(first);
    assert first.utxos == Numbered([(w.external(0), amount)], w.sha(1));
    assert first.utxos[..1] == first.utxos;
    assert first.utxos == [first.utxos[0]] && first.utxos[0].value == amount;
    TotalOne(first.utxos[0]);
    assert PickCount(first.utxos, fee + (amount - fee)) == 1;
    assert Spend(w, fee, first, amount - fee).Some?;
    assert Run(w, fee, commands) == Step(w, fee, first, commands[1]);
    MissedExactlyWhen(w, fee, commands, 1, {w.external(0)});
    SendParts(w, fee, commands, 1);
    assert TransactionOf(w, fee, commands, 1).inputs == first.utxos[..1];
    assert first.utxos[0] in TransactionOf(w, fee, commands, 1).inputs;
  }
}
