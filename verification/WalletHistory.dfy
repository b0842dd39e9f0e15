/**
 Where the simulated wallet's outputs come from and go: no double spend, spending strictly later than
 creation, references that resolve, and the links of the chain.
 */
module WalletHistory {
  import opened Ledger
  import opened Wallet

  // ---------------------------------------------------------------------------------------------
  // Created and spent outputs, read off the chain
  // ---------------------------------------------------------------------------------------------

  function Mine(w: World, outputs: seq<Output>): seq<Output> {
    if |outputs| == 0 then []
    else if w.mine(outputs[0].address) then [outputs[0]] + Mine(w, outputs[1..])
    else Mine(w, outputs[1..])
  }

  /** The wallet's outputs created by the blocks, in chain order. */
  function Created(w: World, blocks: seq<Block>): seq<Output> {
    if |blocks| == 0 then []
    else Created(w, blocks[..|blocks| - 1]) + CreatedIn(w, blocks[|blocks| - 1].transactions)
  }

  function CreatedIn(w: World, transactions: seq<Transaction>): seq<Output> {
    if |transactions| == 0 then [] else Mine(w, transactions[0].outputs) + CreatedIn(w, transactions[1..])
  }

  /** The wallet's outputs consumed by the inputs of the blocks, in chain order. */
  function Spent(w: World, blocks: seq<Block>): seq<Output> {
    if |blocks| == 0 then []
    else Spent(w, blocks[..|blocks| - 1]) + SpentIn(w, blocks[|blocks| - 1].transactions)
  }

  function SpentIn(w: World, transactions: seq<Transaction>): seq<Output> {
    if |transactions| == 0 then [] else Mine(w, transactions[0].inputs) + SpentIn(w, transactions[1..])
  }

  ghost predicate AllMine(w: World, outputs: seq<Output>) {
    forall o :: o in outputs ==> w.mine(o.address)
  }

  lemma {:induction false} MineOfMine(w: World, outputs: seq<Output>)
    requires AllMine(w, outputs)
    ensures Mine(w, outputs) == outputs
  {
    if |outputs| > 0 {
      MineOfMine(w, outputs[1..]);
    }
  }

  lemma {:induction false} MineIsMine(w: World, outputs: seq<Output>)
    ensures AllMine(w, Mine(w, outputs)) && forall o :: o in Mine(w, outputs) ==> o in outputs
  {
    if |outputs| > 0 {
      MineIsMine(w, outputs[1..]);
    }
  }

  // ---------------------------------------------------------------------------------------------
  // What every command has in common
  // ---------------------------------------------------------------------------------------------

  /** A step appends one block with one transaction: its hash is draw `d`, the `k` oldest unspent outputs
      are the wallet's part of its inputs, and at most one of its outputs is the wallet's. */
  datatype Shape = Shape(inputs: seq<Output>, drafts: seq<(string, int)>, d: nat, k: nat)

  function OutputsOf(w: World, sh: Shape): seq<Output> {
    Numbered(sh.drafts, w.sha(sh.d))
  }

  function NextBlock(w: World, s: State, s': State, sh: Shape): Block
    requires |s.blocks| > 0 && s'.draws > 0
  {
    var previous := s.blocks[|s.blocks| - 1].header;
    MakeBlock(previous.height + 1, w.sha(s'.draws - 1), previous.hash,
              [Transaction(w.sha(sh.d), sh.inputs, OutputsOf(w, sh), previous)])
  }

  ghost predicate HasShape(w: World, s: State, s': State, sh: Shape) {
    && |s.blocks| > 0
    && s.draws <= sh.d < s'.draws
    && s'.blocks == s.blocks + [NextBlock(w, s, s', sh)]
    && sh.k <= |s.utxos|
    && Mine(w, sh.inputs) == s.utxos[..sh.k]
    && s'.utxos == s.utxos[sh.k..] + Mine(w, OutputsOf(w, sh))
    && |Mine(w, OutputsOf(w, sh))| <= 1
  }

  lemma ReceiveShape(w: World, fee: int, s: State, amount: int) returns (sh: Shape)
    requires w.Valid() && |s.blocks| > 0
    ensures HasShape(w, s, Receive(w, fee, s, amount), sh)
  {
    var giver := Output(w.root, amount + fee, 0, w.sha(s.draws));
    sh := Shape([giver], [(w.external(s.curExternal), amount)], s.draws + 1, 0);
    var outputs := OutputsOf(w, sh);
    assert [giver][1..] == [] && outputs[1..] == [];
    assert Mine(w, outputs) == outputs;
  }

  /** Of the outputs of a send, the change is the wallet's and the payment is not. */
  lemma ChangeIsMine(w: World, curChange: nat, amount: int, rest: int, hash: string)
    requires w.Valid()
    ensures var outputs := Numbered(SendDrafts(w, curChange, amount, rest), hash);
      Mine(w, outputs) == outputs[1..] && |outputs| <= 2
  {
    var outputs := Numbered(SendDrafts(w, curChange, amount, rest), hash);
    MineOfMine(w, outputs[1..]);
  }

  lemma SpendShape(w: World, fee: int, s: State, amount: int) returns (sh: Shape)
    requires w.Valid() && |s.blocks| > 0 && AllMine(w, s.utxos) && Spend(w, fee, s, amount).Some?
    ensures HasShape(w, s, Spend(w, fee, s, amount).value, sh)
  {
    var k := PickCount(s.utxos, fee + amount);
    var rest := Total(s.utxos[..k]) - fee - amount;
    sh := Shape(s.utxos[..k], SendDrafts(w, s.curChange, amount, rest), s.draws, k);
    MineOfMine(w, s.utxos[..k]);
    ChangeIsMine(w, s.curChange, amount, rest, w.sha(s.draws));
  }

  lemma StepShape(w: World, fee: int, s: State, c: Command) returns (sh: Shape)
    requires w.Valid() && |s.blocks| > 0 && AllMine(w, s.utxos) && Step(w, fee, s, c).Some?
    ensures HasShape(w, s, Step(w, fee, s, c).value, sh)
  {
    if c.Get? {
      sh := ReceiveShape(w, fee, s, c.amount);
    } else if c.Send? {
      sh := SpendShape(w, fee, s, c.amount);
    } else {
      sh := Shape([], [], s.draws, 0);
      assert OutputsOf(w, sh) == [];
    }
  }

  /** One step extends the history by the wallet's part of its inputs and outputs. */
  lemma ShapeHistory(w: World, s: State, s': State, sh: Shape)
    requires HasShape(w, s, s', sh)
    ensures Created(w, s'.blocks) == Created(w, s.blocks) + Mine(w, OutputsOf(w, sh))
    ensures Spent(w, s'.blocks) == Spent(w, s.blocks) + Mine(w, sh.inputs)
    ensures SpentIn(w, s'.blocks[|s.blocks|].transactions) == Mine(w, sh.inputs)
  {
    var ts := NextBlock(w, s, s', sh).transactions;
    assert s'.blocks[..|s.blocks|] == s.blocks;
    assert ts[1..] == [];
    assert CreatedIn(w, ts) == Mine(w, OutputsOf(w, sh)) + [];
    assert SpentIn(w, ts) == Mine(w, sh.inputs) + [];
  }

  lemma GenesisHistory(w: World)
    ensures Created(w, [GENESIS]) == [] && Spent(w, [GENESIS]) == []
  {
    assert GENESIS.transactions == [] && [GENESIS][..0] == [];
  }

  // ---------------------------------------------------------------------------------------------
  // First in, first out
  // ---------------------------------------------------------------------------------------------

  ghost predicate Fifo(w: World, s: State) {
    Created(w, s.blocks) == Spent(w, s.blocks) + s.utxos && AllMine(w, s.utxos)
  }

  lemma ShapeFifo(w: World, s: State, s': State, sh: Shape)
    requires Fifo(w, s) && HasShape(w, s, s', sh)
    ensures Fifo(w, s')
  {
    ShapeHistory(w, s, s', sh);
    MineIsMine(w, OutputsOf(w, sh));
    assert s.utxos == s.utxos[..sh.k] + s.utxos[sh.k..];
  }

  /** After any commands, the outputs created so far are those spent so far followed by the unspent ones:
      the wallet's list is exactly what is left, and outputs are spent in the order of their creation. */
  lemma {:induction false} SpentThenUnspent(w: World, fee: int, commands: seq<Command>)
    requires w.Valid() && Run(w, fee, commands).Some?
    ensures Fifo(w, Run(w, fee, commands).value)
  {
    if |commands| == 0 {
      GenesisHistory(w);
    } else {
      SpentThenUnspent(w, fee, commands[..|commands| - 1]);
      var sh := LastShape(w, fee, commands);
      ShapeFifo(w, Run(w, fee, commands[..|commands| - 1]).value, Run(w, fee, commands).value, sh);
    }
  }

  /** The shape of the last step of a run. */
  lemma LastShape(w: World, fee: int, commands: seq<Command>) returns (sh: Shape)
    requires w.Valid() && |commands| > 0 && Run(w, fee, commands).Some?
    requires AllMine(w, Run(w, fee, commands[..|commands| - 1]).value.utxos)
    ensures HasShape(w, Run(w, fee, commands[..|commands| - 1]).value, Run(w, fee, commands).value, sh)
  {
    sh := StepShape(w, fee, Run(w, fee, commands[..|commands| - 1]).value, commands[|commands| - 1]);
  }

  // ---------------------------------------------------------------------------------------------
  // No output is spent twice
  // ---------------------------------------------------------------------------------------------

  function OriginAt(outputs: seq<Output>, i: nat): string
    requires i < |outputs|
  {
    outputs[i].transactionHash
  }

  ghost predicate DistinctHashes(outputs: seq<Output>) {
    forall i: nat, j: nat :: i < j < |outputs| ==> OriginAt(outputs, i) != OriginAt(outputs, j)
  }

  /** What is distinct is distinct in its parts, and nothing is in both. */
  lemma DistinctParts(xs: seq<Output>, ys: seq<Output>)
    requires DistinctHashes(xs + ys)
    ensures DistinctHashes(xs)
    ensures forall x, y :: x in xs && y in ys ==> x.transactionHash != y.transactionHash
  {
    var all := xs + ys;
    forall i: nat, j: nat | i < j < |xs| ensures OriginAt(xs, i) != OriginAt(xs, j) {
      assert OriginAt(all, i) == OriginAt(xs, i) && OriginAt(all, j) == OriginAt(xs, j);
    }
    forall x, y | x in xs && y in ys ensures x.transactionHash != y.transactionHash {
      var i: nat :| i < |xs| && xs[i] == x;
      var j: nat :| j < |ys| && ys[j] == y;
      assert OriginAt(all, i) == x.transactionHash && OriginAt(all, |xs| + j) == y.transactionHash;
    }
  }

  ghost predicate Drawn(w: World, hash: string, draws: nat) {
    exists d: nat :: d < draws && hash == w.sha(d)
  }

  ghost predicate Traceable(w: World, s: State) {
    && DistinctHashes(Created(w, s.blocks))
    && forall o :: o in Created(w, s.blocks) ==> Drawn(w, o.transactionHash, s.draws)
  }

  lemma DrawnLater(w: World, hash: string, draws: nat, draws': nat)
    requires Drawn(w, hash, draws) && draws <= draws'
    ensures Drawn(w, hash, draws')
    ensures w.Valid() ==> forall d: nat :: d >= draws ==> w.sha(d) != hash
  {
    var d: nat :| d < draws && hash == w.sha(d);
    assert d < draws' && hash == w.sha(d);
  }

  lemma ShapeTraceable(w: World, s: State, s': State, sh: Shape)
    requires w.Valid() && Traceable(w, s) && HasShape(w, s, s', sh)
    ensures Traceable(w, s')
  {
    ShapeHistory(w, s, s', sh);
    var created, more := Created(w, s.blocks), Mine(w, OutputsOf(w, sh));
    MineIsMine(w, OutputsOf(w, sh));
    forall o: Output | o in created + more
      ensures Drawn(w, o.transactionHash, s'.draws)
      ensures o in created ==> o.transactionHash != w.sha(sh.d)
    {
      if o in created {
        DrawnLater(w, o.transactionHash, s.draws, s'.draws);
      } else {
        assert sh.d < s'.draws && o.transactionHash == w.sha(sh.d);
      }
    }
    forall i: nat, j: nat | i < j < |created + more| ensures OriginAt(created + more, i) != OriginAt(created + more, j) {
      if j == |created| {
        assert created[i] in created && more[0] in more;
      } else {
        assert OriginAt(created, i) != OriginAt(created, j);
      }
    }
  }

  lemma {:induction false} RunTraceable(w: World, fee: int, commands: seq<Command>)
    requires w.Valid() && Run(w, fee, commands).Some?
    ensures Traceable(w, Run(w, fee, commands).value)
  {
    if |commands| == 0 {
      GenesisHistory(w);
    } else {
      RunTraceable(w, fee, commands[..|commands| - 1]);
      SpentThenUnspent(w, fee, commands[..|commands| - 1]);
      var sh := LastShape(w, fee, commands);
      ShapeTraceable(w, Run(w, fee, commands[..|commands| - 1]).value, Run(w, fee, commands).value, sh);
    }
  }

  /** No double spend: all the wallet's outputs ever spent lie in different transactions, and none of them
      is still listed as unspent. */
  lemma NoDoubleSpend(w: World, fee: int, commands: seq<Command>)
    requires w.Valid() && Run(w, fee, commands).Some?
    ensures var s := Run(w, fee, commands).value;
      && DistinctHashes(Spent(w, s.blocks))
      && forall o, u :: o in Spent(w, s.blocks) && u in s.utxos ==> o.transactionHash != u.transactionHash
  {
    var s := Run(w, fee, commands).value;
    RunTraceable(w, fee, commands);
    SpentThenUnspent(w, fee, commands);
    DistinctParts(Spent(w, s.blocks), s.utxos);
  }

  // ---------------------------------------------------------------------------------------------
  // References resolve, in earlier blocks
  // ---------------------------------------------------------------------------------------------

  ghost predicate ResolvesIn(o: Output, t: Transaction) {
    t.hash == o.transactionHash && o.index < |t.outputs| && t.outputs[o.index] == o
  }

  ghost predicate Resolves(o: Output, blocks: seq<Block>) {
    exists b, t :: b in blocks && t in b.transactions && ResolvesIn(o, t)
  }

  lemma ResolvesLater(o: Output, blocks: seq<Block>, blocks': seq<Block>)
    requires Resolves(o, blocks) && blocks <= blocks'
    ensures Resolves(o, blocks')
  {
    var b, t :| b in blocks && t in b.transactions && ResolvesIn(o, t);
    assert b in blocks' && t in b.transactions && ResolvesIn(o, t);
  }

  ghost predicate AllResolve(outputs: seq<Output>, blocks: seq<Block>) {
    forall o :: o in outputs ==> Resolves(o, blocks)
  }

  lemma ShapeResolves(w: World, s: State, s': State, sh: Shape)
    requires AllResolve(Created(w, s.blocks), s.blocks) && HasShape(w, s, s', sh)
    ensures AllResolve(Created(w, s'.blocks), s'.blocks)
  {
    ShapeHistory(w, s, s', sh);
    MineIsMine(w, OutputsOf(w, sh));
    var block := s'.blocks[|s.blocks|];
    forall o | o in Created(w, s'.blocks) ensures Resolves(o, s'.blocks) {
      if o in Created(w, s.blocks) {
        ResolvesLater(o, s.blocks, s'.blocks);
      } else {
        assert block in s'.blocks && block.transactions[0] in block.transactions && ResolvesIn(o, block.transactions[0]);
      }
    }
  }

  /** Every output the wallet ever created is found at its (hash, index) in the chain. */
  lemma {:induction false} CreatedResolve(w: World, fee: int, commands: seq<Command>)
    requires w.Valid() && Run(w, fee, commands).Some?
    ensures var s := Run(w, fee, commands).value; AllResolve(Created(w, s.blocks), s.blocks)
  {
    if |commands| == 0 {
      GenesisHistory(w);
    } else {
      CreatedResolve(w, fee, commands[..|commands| - 1]);
      SpentThenUnspent(w, fee, commands[..|commands| - 1]);
      var sh := LastShape(w, fee, commands);
      ShapeResolves(w, Run(w, fee, commands[..|commands| - 1]).value, Run(w, fee, commands).value, sh);
    }
  }

  ghost predicate SpendsOnlyEarlier(w: World, blocks: seq<Block>, n: nat)
    requires n < |blocks|
  {
    forall o {:trigger o in SpentIn(w, blocks[n].transactions)} :: o in SpentIn(w, blocks[n].transactions) ==>
      o in Created(w, blocks[..n]) && Resolves(o, blocks[..n])
  }

  lemma LastSpendsEarlier(w: World, fee: int, commands: seq<Command>)
    requires w.Valid() && Run(w, fee, commands).Some?
    ensures SpendsOnlyEarlier(w, Run(w, fee, commands).value.blocks, |commands|)
  {
    if |commands| > 0 {
      var before := commands[..|commands| - 1];
      SpentThenUnspent(w, fee, before);
      CreatedResolve(w, fee, before);
      var sh := LastShape(w, fee, commands);
      ShapeHistory(w, Run(w, fee, before).value, Run(w, fee, commands).value, sh);
      assert Run(w, fee, commands).value.blocks[..|commands|] == Run(w, fee, before).value.blocks;
    } else {
      assert SpentIn(w, GENESIS.transactions) == [];
    }
  }

  /** What a block spends was created, and resolves, strictly before that block. */
  lemma SpentEarlier(w: World, fee: int, commands: seq<Command>, n: nat)
    requires w.Valid() && Run(w, fee, commands).Some? && n <= |commands|
    ensures SpendsOnlyEarlier(w, Run(w, fee, commands).value.blocks, n)
  {
    RunPrefix(w, fee, commands, n);
    LastSpendsEarlier(w, fee, commands[..n]);
    var blocks, first := Run(w, fee, commands).value.blocks, Run(w, fee, commands[..n]).value.blocks;
    assert blocks[n] == first[n] && blocks[..n] == first[..n];
  }

  // ---------------------------------------------------------------------------------------------
  // The chain
  // ---------------------------------------------------------------------------------------------

  ghost predicate Chained(w: World, s: State) {
    && Linked(s.blocks)
    && forall b :: b in s.blocks ==> b.header.hash == GENESIS_HASH || Drawn(w, b.header.hash, s.draws)
  }

  lemma ShapeHashes(w: World, s: State, s': State, sh: Shape)
    requires w.Valid() && Chained(w, s) && HasShape(w, s, s', sh) && s'.draws - 1 >= s.draws
    ensures forall b :: b in s'.blocks ==> b.header.hash == GENESIS_HASH || Drawn(w, b.header.hash, s'.draws)
    ensures forall b :: b in s.blocks ==> b.header.hash != w.sha(s'.draws - 1)
  {
    forall b | b in s'.blocks
      ensures b.header.hash == GENESIS_HASH || Drawn(w, b.header.hash, s'.draws)
      ensures b in s.blocks ==> b.header.hash != w.sha(s'.draws - 1)
    {
      if b !in s.blocks {
        assert s'.draws - 1 < s'.draws && b.header.hash == w.sha(s'.draws - 1);
      } else if b.header.hash != GENESIS_HASH {
        DrawnLater(w, b.header.hash, s.draws, s'.draws);
      }
    }
  }

  lemma ShapeChained(w: World, s: State, s': State, sh: Shape)
    requires w.Valid() && Chained(w, s) && HasShape(w, s, s', sh)
    ensures Chained(w, s')
  {
    ShapeHashes(w, s, s', sh);
    var blocks := s'.blocks;
    forall i: nat, j: nat | i < j < |blocks| ensures HashAt(blocks, i) != HashAt(blocks, j) {
      if j == |s.blocks| {
        assert blocks[i] in s.blocks;
      } else {
        assert HashAt(s.blocks, i) != HashAt(s.blocks, j);
      }
    }
    forall i | 0 < i < |blocks| ensures LinkedAt(blocks, i) {
      if i < |s.blocks| {
        assert LinkedAt(s.blocks, i);
      }
    }
  }

  lemma {:induction false} GeneratedChainIsLinked(w: World, fee: int, commands: seq<Command>)
    requires w.Valid() && Run(w, fee, commands).Some?
    ensures Chained(w, Run(w, fee, commands).value)
  {
    if |commands| > 0 {
      GeneratedChainIsLinked(w, fee, commands[..|commands| - 1]);
      SpentThenUnspent(w, fee, commands[..|commands| - 1]);
      var sh := LastShape(w, fee, commands);
      ShapeChained(w, Run(w, fee, commands[..|commands| - 1]).value, Run(w, fee, commands).value, sh);
    }
  }
}
