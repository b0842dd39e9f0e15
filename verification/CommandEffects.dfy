/**
 What each command of the generator puts into the chain, and on which addresses, read off the transactions.
 */
module CommandEffects {
  import opened Outcomes
  import opened Ledger
  import opened Wallet
  import opened WalletHistory

  /** The transaction of command `n`. */
  ghost function TransactionOf(w: World, fee: int, commands: seq<Command>, n: nat): Transaction
    requires Run(w, fee, commands).Some? && n < |commands|
  {
    BlockOfCommand(w, fee, commands, n);
    StepTotals(w, fee, Run(w, fee, commands[..n]).value, commands[n]);
    Run(w, fee, commands).value.blocks[n + 1].transactions[0]
  }

  /** Block `n + 1` holds one transaction, that of command `n`. */
  lemma OnlyTransaction(w: World, fee: int, commands: seq<Command>, n: nat)
    requires Run(w, fee, commands).Some? && n < |commands|
    ensures Run(w, fee, commands).value.blocks[n + 1].transactions == [TransactionOf(w, fee, commands, n)]
  {
    EveryFeeIsTheFee(w, fee, commands, n);
  }

  // ---------------------------------------------------------------------------------------------
  // Which addresses have been used
  // ---------------------------------------------------------------------------------------------

  function Receptions(commands: seq<Command>): nat {
    if |commands| == 0 then 0
    else Receptions(commands[..|commands| - 1]) + if commands[|commands| - 1].Get? then 1 else 0
  }

  /** The sends that have left change: those with a second output. */
  ghost function ChangesLeft(w: World, fee: int, commands: seq<Command>): nat
    requires Run(w, fee, commands).Some?
  {
    if |commands| == 0 then 0
    else
      var n := |commands| - 1;
      ChangesLeft(w, fee, commands[..n])
      + if commands[n].Send? && |TransactionOf(w, fee, commands, n).outputs| == 2 then 1 else 0
  }

  lemma LastTransaction(w: World, fee: int, commands: seq<Command>)
    requires Run(w, fee, commands).Some? && |commands| > 0
    ensures var n := |commands| - 1;
      var before := Run(w, fee, commands[..n]);
      && before.Some? && |before.value.blocks| == n + 1
      && Step(w, fee, before.value, commands[n]) == Run(w, fee, commands)
      && TransactionOf(w, fee, commands, n) == Run(w, fee, commands).value.blocks[n + 1].transactions[0]
  {
  }

  /** The counters of the generator are what the chain says. */
  lemma {:induction false} CountersAreUses(w: World, fee: int, commands: seq<Command>)
    requires Run(w, fee, commands).Some?
    ensures Run(w, fee, commands).value.curExternal == Receptions(commands)
    ensures Run(w, fee, commands).value.curChange == ChangesLeft(w, fee, commands)
  {
    if |commands| > 0 {
      var n := |commands| - 1;
      CountersAreUses(w, fee, commands[..n]);
      LastTransaction(w, fee, commands);
      StepCounters(w, fee, Run(w, fee, commands[..n]).value, commands[n]);
    }
  }

  /** A command uses an external address exactly to receive, and a change address exactly for a second output. */
  lemma StepCounters(w: World, fee: int, s: State, c: Command)
    requires |s.blocks| > 0 && Step(w, fee, s, c).Some?
    ensures var s' := Step(w, fee, s, c).value;
      && s'.curExternal == s.curExternal + (if c.Get? then 1 else 0)
      && |s'.blocks[|s.blocks|].transactions| == 1
      && s'.curChange == s.curChange + (if c.Send? && |s'.blocks[|s.blocks|].transactions[0].outputs| == 2 then 1 else 0)
  {
  }

  // ---------------------------------------------------------------------------------------------
  // What each command puts into the chain
  // ---------------------------------------------------------------------------------------------

  /** A reception pays the amount to the next external address, out of one output of the account's own address
      that is worth the fee more. */
  lemma ReceptionIs(w: World, fee: int, commands: seq<Command>, n: nat)
    requires Run(w, fee, commands).Some? && n < |commands| && commands[n].Get?
    ensures var t, amount := TransactionOf(w, fee, commands, n), commands[n].amount;
      && t.outputs == [Output(w.external(Receptions(commands[..n])), amount, 0, t.hash)]
      && |t.inputs| == 1 && t.inputs[0].address == w.root && t.inputs[0].value == amount + fee && t.inputs[0].index == 0
  {
    BlockOfCommand(w, fee, commands, n);
    CountersAreUses(w, fee, commands[..n]);
  }

  /** The unspent outputs before command `n`, oldest first, read off the chain. */
  ghost function UnspentBefore(w: World, blocks: seq<Block>, n: nat): seq<Output>
    requires n < |blocks| && |Spent(w, blocks[..n + 1])| <= |Created(w, blocks[..n + 1])|
  {
    Created(w, blocks[..n + 1])[|Spent(w, blocks[..n + 1])|..]
  }

  /** The list the generator keeps is what the chain leaves unspent. */
  lemma UnspentIs(w: World, fee: int, commands: seq<Command>, n: nat)
    requires w.Valid() && Run(w, fee, commands).Some? && n <= |commands|
    ensures var blocks := Run(w, fee, commands).value.blocks;
      && |Spent(w, blocks[..n + 1])| <= |Created(w, blocks[..n + 1])|
      && Run(w, fee, commands[..n]).Some?
      && Run(w, fee, commands[..n]).value.utxos == UnspentBefore(w, blocks, n)
  {
    RunPrefix(w, fee, commands, n);
    SpentThenUnspent(w, fee, commands[..n]);
  }

  /** The transaction spends the shortest non-empty prefix of `unspent` that covers amount and fee, pays the amount to the
      account's own address, and leaves what remains, if anything, on change address `change`. */
  ghost predicate PaysFrom(w: World, fee: int, t: Transaction, unspent: seq<Output>, amount: int, change: nat) {
    var need := amount + fee;
    && t.inputs <= unspent && (unspent != [] ==> t.inputs != [])
    && Total(t.inputs) >= need && (forall j :: 0 < j < |t.inputs| ==> Total(t.inputs[..j]) < need)
    && t.outputs == [Output(w.root, amount, 0, t.hash)]
                    + if Total(t.inputs) == need then []
                      else [Output(w.internal(change), Total(t.inputs) - need, 1, t.hash)]
  }

  lemma SpendPays(w: World, fee: int, s: State, amount: int)
    requires |s.blocks| > 0 && Spend(w, fee, s, amount).Some?
    ensures var s' := Spend(w, fee, s, amount).value;
      && |s'.blocks[|s.blocks|].transactions| == 1
      && PaysFrom(w, fee, s'.blocks[|s.blocks|].transactions[0], s.utxos, amount, s.curChange)
  {
    var k := PickCount(s.utxos, fee + amount);
    var inputs := s.utxos[..k];
    PickIsShortest(s.utxos, fee + amount);
    forall j | 0 < j < k ensures inputs[..j] == s.utxos[..j] {
    }
  }

  lemma SendPays(w: World, fee: int, commands: seq<Command>, n: nat)
    requires Run(w, fee, commands).Some? && n < |commands| && commands[n].Send?
    ensures var before := Run(w, fee, commands[..n]);
      before.Some? && PaysFrom(w, fee, TransactionOf(w, fee, commands, n), before.value.utxos, commands[n].amount, before.value.curChange)
  {
    BlockOfCommand(w, fee, commands, n);
    SpendPays(w, fee, Run(w, fee, commands[..n]).value, commands[n].amount);
  }

  /** A send pays from the unspent outputs, with the next change address. */
  lemma SendIs(w: World, fee: int, commands: seq<Command>, n: nat)
    requires Run(w, fee, commands).Some? && n < |commands| && commands[n].Send?
    ensures Run(w, fee, commands[..n]).Some?
    ensures PaysFrom(w, fee, TransactionOf(w, fee, commands, n), Run(w, fee, commands[..n]).value.utxos, commands[n].amount,
                     ChangesLeft(w, fee, commands[..n]))
  {
    SendPays(w, fee, commands, n);
    CountersAreUses(w, fee, commands[..n]);
  }

  lemma OtherIs(w: World, fee: int, commands: seq<Command>, n: nat)
    requires Run(w, fee, commands).Some? && n < |commands| && commands[n].Other?
    ensures var t := TransactionOf(w, fee, commands, n); t.inputs == [] && t.outputs == []
  {
    BlockOfCommand(w, fee, commands, n);
  }

  /** The hashes that a block took from the stream: those of the giver, if there is one, of the transaction, and of
      the block itself. */
  ghost function HashesOf(b: Block, c: Command): (Option<string>, Option<string>, string) {
    if |b.transactions| != 1 then (None, None, b.header.hash)
    else
      var t := b.transactions[0];
      (if c.Get? && |t.inputs| == 1 then Some(t.inputs[0].transactionHash) else None, Some(t.hash), b.header.hash)
  }

  /** The next hashes of the stream, from draw `d` on. */
  ghost function NextHashes(w: World, c: Command, d: nat): (Option<string>, Option<string>, string) {
    if c.Get? then (Some(w.sha(d)), Some(w.sha(d + 1)), w.sha(d + 2)) else (None, Some(w.sha(d)), w.sha(d + 1))
  }

  lemma StepDraws(w: World, fee: int, s: State, c: Command)
    requires |s.blocks| > 0 && Step(w, fee, s, c).Some?
    ensures var s' := Step(w, fee, s, c).value;
      && s'.draws == s.draws + (if c.Get? then 3 else 2)
      && |s'.blocks| == |s.blocks| + 1
      && HashesOf(s'.blocks[|s.blocks|], c) == NextHashes(w, c, s.draws)
  {
  }

  lemma StepHashes(w: World, fee: int, s: State, c: Command, s': State, b: Block)
    requires |s.blocks| > 0 && Step(w, fee, s, c) == Some(s') && b == s'.blocks[|s.blocks|]
    ensures HashesOf(b, c) == NextHashes(w, c, s.draws)
  {
    StepDraws(w, fee, s, c);
  }

  lemma {:induction false} DrawsAreUses(w: World, fee: int, commands: seq<Command>)
    requires Run(w, fee, commands).Some?
    ensures Run(w, fee, commands).value.draws == 2 * |commands| + Receptions(commands)
  {
    if |commands| > 0 {
      var n := |commands| - 1;
      DrawsAreUses(w, fee, commands[..n]);
      StepDraws(w, fee, Run(w, fee, commands[..n]).value, commands[n]);
    }
  }

  /** The step that appended block `b`, on which command `n` has run. */
  lemma BlockStep(w: World, fee: int, commands: seq<Command>, n: nat, b: Block) returns (s: State, s': State)
    requires Run(w, fee, commands).Some? && n < |commands| && b == Run(w, fee, commands).value.blocks[n + 1]
    ensures |s.blocks| == n + 1 && Step(w, fee, s, commands[n]) == Some(s') && s'.blocks[n + 1] == b
    ensures s.draws == 2 * n + Receptions(commands[..n])
  {
    BlockOfCommand(w, fee, commands, n);
    DrawsAreUses(w, fee, commands[..n]);
    s := Run(w, fee, commands[..n]).value;
    s' := Step(w, fee, s, commands[n]).value;
  }

  /** Every random hash is used once, in this order: for the giver of a reception, for the transaction, for the
      block. */
  lemma HashesAreDraws(w: World, fee: int, commands: seq<Command>, n: nat, b: Block)
    requires Run(w, fee, commands).Some? && n < |commands| && b == Run(w, fee, commands).value.blocks[n + 1]
    ensures HashesOf(b, commands[n]) == NextHashes(w, commands[n], 2 * n + Receptions(commands[..n]))
  {
    var s, s' := BlockStep(w, fee, commands, n, b);
    StepHashes(w, fee, s, commands[n], s', b);
  }

  lemma GenesisIsFirst(w: World, fee: int, commands: seq<Command>)
    requires Run(w, fee, commands).Some?
    ensures Run(w, fee, commands).value.blocks[0]
            == Block(Header(0, "000000000019d6689c085ae165831e934ff763ae46a2a6c172b3f1b60a8ce26f"),
                     "0000000000000000000000000000000000000000000000000000000000000000", [])
  {
    RunPrefix(w, fee, commands, 0);
    var blocks := Run(w, fee, commands).value.blocks;
    assert blocks[0] == blocks[..1][0];
  }

  lemma {:induction false} LinkedHeights(blocks: seq<Block>, n: nat)
    requires Linked(blocks) && n < |blocks|
    ensures blocks[n].header.height == blocks[0].header.height + n
  {
    if n > 0 {
      LinkedHeights(blocks, n - 1);
      assert LinkedAt(blocks, n);
    }
  }

  /** Every block of a generated chain is as high as its place. */
  lemma HeightsArePlaces(w: World, fee: int, commands: seq<Command>, s: State, n: nat)
    requires w.Valid() && Run(w, fee, commands) == Some(s) && n < |s.blocks|
    ensures s.blocks[n].header.height == n
  {
    GenesisIsFirst(w, fee, commands);
    assert Linked(s.blocks) by {
      GeneratedChainIsLinked(w, fee, commands);
    }
    LinkedHeights(s.blocks, n);
  }
}
