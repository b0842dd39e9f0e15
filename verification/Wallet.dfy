/**
 The test chain generator: a simulated wallet that receives from outside, and spends its unspent outputs
 oldest first, one command and one block at a time.
 */
module Wallet {
  import opened Outcomes
  import opened Ledger

  datatype Command = Get(amount: int) | Send(amount: int) | Other(amount: int)

  const GENESIS_HASH := "000000000019d6689c085ae165831e934ff763ae46a2a6c172b3f1b60a8ce26f"
  const GENESIS_PARENT := "0000000000000000000000000000000000000000000000000000000000000000"

  /** What the generator takes from outside: the address of the account, the addresses derived from it,
      and the stream of random hashes. `mine` tells the derived addresses from all others. */
  datatype World = World(
    root: string, external: nat -> string, internal: nat -> string, mine: string -> bool, sha: nat -> string)
  {
    /** Random hashes never repeat, and the account's own address is not among the derived ones. */
    ghost predicate Valid() {
      && (forall i, j :: sha(i) == sha(j) ==> i == j)
      && (forall i :: sha(i) != GENESIS_HASH)
      && (forall i :: mine(external(i)) && mine(internal(i)))
      && !mine(root)
    }
  }

  // ---------------------------------------------------------------------------------------------
  // The generator as a function of its commands
  // ---------------------------------------------------------------------------------------------

  datatype State = State(utxos: seq<Output>, curExternal: nat, curChange: nat, draws: nat, blocks: seq<Block>)

  const GENESIS := MakeBlock(0, GENESIS_HASH, GENESIS_PARENT, [])
  const INITIAL := State([], 0, 0, 0, [GENESIS])

  /** How many of the oldest outputs the picking loop pops: at least one if there is any, then as many as
      it takes to reach the target. */
  function PickCount(utxos: seq<Output>, target: int): (k: nat)
    ensures k <= |utxos|
  {
    if |utxos| == 0 then 0
    else if utxos[0].value >= target then 1
    else 1 + PickCount(utxos[1..], target - utxos[0].value)
  }

  /** Appends the block of one transaction to a chain that is never empty. */
  function Extend(w: World, s: State, inputs: seq<Output>, hash: string, outputs: seq<Output>): State
    requires |s.blocks| > 0
  {
    var previous := s.blocks[|s.blocks| - 1];
    var block := MakeBlock(previous.header.height + 1, w.sha(s.draws), previous.header.hash,
                           [Transaction(hash, inputs, outputs, previous.header)]);
    s.(blocks := s.blocks + [block], draws := s.draws + 1)
  }

  function Receive(w: World, fee: int, s: State, amount: int): State
    requires |s.blocks| > 0
  {
    var giver := Output(w.root, amount + fee, 0, w.sha(s.draws));
    var hash := w.sha(s.draws + 1);
    var outputs := Numbered([(w.external(s.curExternal), amount)], hash);
    Extend(w, s.(utxos := s.utxos + outputs, curExternal := s.curExternal + 1, draws := s.draws + 2), [giver], hash, outputs)
  }

  /** The outputs of a send: the payment, then the change if there is any. */
  function SendDrafts(w: World, curChange: nat, amount: int, rest: int): seq<(string, int)> {
    [(w.root, amount)] + if rest > 0 then [(w.internal(curChange), rest)] else []
  }

  /** `None` is the ValueError raised when the popped outputs do not reach the target. */
  function Spend(w: World, fee: int, s: State, amount: int): Option<State>
    requires |s.blocks| > 0
  {
    var k := PickCount(s.utxos, fee + amount);
    var total, hash := Total(s.utxos[..k]), w.sha(s.draws);
    if total < fee + amount then None
    else
      var rest := total - fee - amount;
      var outputs := Numbered(SendDrafts(w, s.curChange, amount, rest), hash);
      var curChange := if rest > 0 then s.curChange + 1 else s.curChange;
      Some(Extend(w, s.(utxos := s.utxos[k..] + outputs[1..], curChange := curChange, draws := s.draws + 1),
                  s.utxos[..k], hash, outputs))
  }

  function Step(w: World, fee: int, s: State, c: Command): (r: Option<State>)
    requires |s.blocks| > 0
    ensures r.Some? ==> |r.value.blocks| == |s.blocks| + 1 && r.value.blocks[..|s.blocks|] == s.blocks
  {
    match c
    case Get(amount) => Some(Receive(w, fee, s, amount))
    case Send(amount) => Spend(w, fee, s, amount)
    case Other(_) => Some(Extend(w, s.(draws := s.draws + 1), [], w.sha(s.draws), []))
  }

  /** The state after all the commands, or `None` if one of them raised. */
  function Run(w: World, fee: int, commands: seq<Command>): (r: Option<State>)
    ensures r.Some? ==> |r.value.blocks| == |commands| + 1
  {
    if |commands| == 0 then Some(INITIAL)
    else
      var before := Run(w, fee, commands[..|commands| - 1]);
      if before.None? then None else Step(w, fee, before.value, commands[|commands| - 1])
  }

  // ---------------------------------------------------------------------------------------------
  // The generator in place
  // ---------------------------------------------------------------------------------------------

  class Generator {
    const world: World
    const fee: int
    var utxos: seq<Output>
    var curExternal: nat
    var curChange: nat
    var draws: nat
    var blocks: seq<Block>  // the blocks yielded so far

    ghost function View(): State
      reads this
    {
      State(utxos, curExternal, curChange, draws, blocks)
    }

    constructor (world: World, fee: int)
      ensures this.world == world && this.fee == fee && View() == INITIAL
    {
      this.world, this.fee := world, fee;
      utxos, curExternal, curChange, draws := [], 0, 0, 0;
      blocks := [MakeBlock(0, GENESIS_HASH, GENESIS_PARENT, [])];
    }

    method RandomSha() returns (hash: string)
      modifies this`draws
      ensures hash == world.sha(old(draws)) && draws == old(draws) + 1
    {
      hash := world.sha(draws);
      draws := draws + 1;
    }

    method YieldBlock(inputs: seq<Output>, hash: string, outputs: seq<Output>)
      requires |blocks| > 0
      modifies this`draws, this`blocks
      ensures View() == Extend(world, old(View()), inputs, hash, outputs)
    {
      var previous := blocks[|blocks| - 1];
      var blockHash := RandomSha();
      var transaction := Transaction(hash, inputs, outputs, previous.header);
      blocks := blocks + [MakeBlock(previous.header.height + 1, blockHash, previous.header.hash, [transaction])];
    }

    /** The picking loop: pop the oldest output until the target is reached or nothing is left. */
    method Pick(target: int) returns (inputs: seq<Output>, total: int)
      modifies this`utxos
      ensures var k := PickCount(old(utxos), target);
        inputs == old(utxos)[..k] && utxos == old(utxos)[k..] && total == Total(inputs)
    {
      inputs, total := [], 0;
      while utxos != []
        invariant |inputs| + |utxos| == |old(utxos)|
        invariant inputs == old(utxos)[..|inputs|] && utxos == old(utxos)[|inputs|..]
        invariant total == Total(inputs)
        invariant PickCount(old(utxos), target) == |inputs| + PickCount(utxos, target - total)
        decreases |utxos|
      {
        var utxo := utxos[0];
        TotalConcat(inputs, [utxo]);
        utxos := utxos[1..];
        total := total + utxo.value;
        inputs := inputs + [utxo];
        if total >= target {
          break;
        }
      }
    }

    method ExecuteGet(amount: int)
      requires |blocks| > 0
      modifies this
      ensures View() == Receive(world, fee, old(View()), amount)
    {
      var giverHash := RandomSha();
      var giver := Output(world.root, amount + fee, 0, giverHash);
      var address := world.external(curExternal);
      curExternal := curExternal + 1;
      var hash := RandomSha();
      var outputs := Numbered([(address, amount)], hash);
      utxos := utxos + outputs;
      YieldBlock([giver], hash, outputs);
    }

    /** `false` is the ValueError, raised after the wallet has been emptied. */
    method ExecuteSend(amount: int) returns (ok: bool)
      requires |blocks| > 0
      modifies this
      ensures ok <==> Spend(world, fee, old(View()), amount).Some?
      ensures ok ==> View() == Spend(world, fee, old(View()), amount).value
      ensures !ok ==> blocks == old(blocks)
    {
      var inputs, total := Pick(fee + amount);
      if total < fee + amount {
        return false;
      }
      var rest := total - fee - amount;
      var drafts := SendDrafts(world, curChange, amount, rest);
      if rest > 0 {
        curChange := curChange + 1;
      }
      var hash := RandomSha();
      var outputs := Numbered(drafts, hash);
      utxos := utxos + outputs[1..];
      YieldBlock(inputs, hash, outputs);
      ok := true;
    }

    method Execute(c: Command) returns (ok: bool)
      requires |blocks| > 0
      modifies this
      ensures ok <==> Step(world, fee, old(View()), c).Some?
      ensures ok ==> View() == Step(world, fee, old(View()), c).value
      ensures !ok ==> blocks == old(blocks)
    {
      ok := true;
      match c {
        case Get(amount) =>
          ExecuteGet(amount);
        case Send(amount) =>
          ok := ExecuteSend(amount);
        case Other(_) =>
          var hash := RandomSha();
          YieldBlock([], hash, []);
      }
    }

    /** The whole generator: the blocks of the commands up to the one that raises, if one does. */
    method Generate(commands: seq<Command>) returns (raised: bool)
      requires View() == INITIAL
      modifies this
      ensures raised <==> Run(world, fee, commands).None?
      ensures !raised ==> View() == Run(world, fee, commands).value
      ensures raised ==> exists n :: 0 <= n < |commands| && Run(world, fee, commands[..n + 1]).None?
                                      && Run(world, fee, commands[..n]).Some? && blocks == Run(world, fee, commands[..n]).value.blocks
    {
      var n := 0;
      while n < |commands|
        invariant 0 <= n <= |commands|
        invariant Run(world, fee, commands[..n]) == Some(View())
      {
        assert commands[..n + 1][..n] == commands[..n];
        var ok := Execute(commands[n]);
        if !ok {
          RaisedStays(world, fee, commands, n + 1);
          return true;
        }
        n := n + 1;
      }
      assert commands[..n] == commands;
      return false;
    }
  }

  lemma {:induction false} RaisedStays(w: World, fee: int, commands: seq<Command>, n: nat)
    requires n <= |commands| && Run(w, fee, commands[..n]).None?
    ensures Run(w, fee, commands).None?
    decreases |commands|
  {
    if n < |commands| {
      assert commands[..|commands| - 1][..n] == commands[..n];
      RaisedStays(w, fee, commands[..|commands| - 1], n);
    } else {
      assert commands[..n] == commands;
    }
  }

  lemma RunSnoc(w: World, fee: int, commands: seq<Command>, c: Command)
    ensures var before := Run(w, fee, commands);
      Run(w, fee, commands + [c]) == if before.None? then None else Step(w, fee, before.value, c)
  {
    assert (commands + [c])[..|commands|] == commands;
  }

  // ---------------------------------------------------------------------------------------------
  // Conservation
  // ---------------------------------------------------------------------------------------------

  /** What a command adds to the wallet. */
  function Change(fee: int, c: Command): int {
    match c
    case Get(amount) => amount
    case Send(amount) => -(amount + fee)
    case Other(_) => 0
  }

  /** What a wallet holds after the commands, by book-keeping alone. */
  function Balance(fee: int, commands: seq<Command>): int {
    if |commands| == 0 then 0
    else Balance(fee, commands[..|commands| - 1]) + Change(fee, commands[|commands| - 1])
  }

  /** The worth of the outputs of a send. */
  lemma SendDraftsTotal(w: World, curChange: nat, amount: int, rest: int, hash: string)
    requires rest >= 0
    ensures var outputs := Numbered(SendDrafts(w, curChange, amount, rest), hash);
      Total(outputs) == amount + rest && Total(outputs[1..]) == rest
  {
    var outputs := Numbered(SendDrafts(w, curChange, amount, rest), hash);
    assert outputs == [outputs[0]] + outputs[1..];
    TotalConcat([outputs[0]], outputs[1..]);
    TotalOne(outputs[0]);
    if rest > 0 {
      assert outputs[1..] == [outputs[1]];
      TotalOne(outputs[1]);
    }
  }

  lemma SpendTotals(w: World, fee: int, s: State, amount: int)
    requires |s.blocks| > 0 && Spend(w, fee, s, amount).Some?
    ensures var s' := Spend(w, fee, s, amount).value;
      && Total(s'.utxos) == Total(s.utxos) - (amount + fee)
      && |s'.blocks[|s.blocks|].transactions| == 1
      && Fee(s'.blocks[|s.blocks|].transactions[0]) == fee
  {
    var k := PickCount(s.utxos, fee + amount);
    var rest := Total(s.utxos[..k]) - fee - amount;
    var outputs := Numbered(SendDrafts(w, s.curChange, amount, rest), w.sha(s.draws));
    SendDraftsTotal(w, s.curChange, amount, rest, w.sha(s.draws));
    assert s.utxos == s.utxos[..k] + s.utxos[k..];
    TotalConcat(s.utxos[..k], s.utxos[k..]);
    TotalConcat(s.utxos[k..], outputs[1..]);
  }

  lemma ReceiveTotals(w: World, fee: int, s: State, amount: int)
    requires |s.blocks| > 0
    ensures var s' := Receive(w, fee, s, amount);
      && Total(s'.utxos) == Total(s.utxos) + amount
      && |s'.blocks[|s.blocks|].transactions| == 1
      && Fee(s'.blocks[|s.blocks|].transactions[0]) == fee
  {
    var outputs := Numbered([(w.external(s.curExternal), amount)], w.sha(s.draws + 1));
    assert outputs == [outputs[0]];
    TotalOne(outputs[0]);
    TotalOne(Output(w.root, amount + fee, 0, w.sha(s.draws)));
    TotalConcat(s.utxos, outputs);
  }

  /** One command moves the balance as the book-keeping says, and its transaction pays the fee. */
  lemma StepTotals(w: World, fee: int, s: State, c: Command)
    requires |s.blocks| > 0 && Step(w, fee, s, c).Some?
    ensures var s' := Step(w, fee, s, c).value;
      && Total(s'.utxos) == Total(s.utxos) + Change(fee, c)
      && |s'.blocks[|s.blocks|].transactions| == 1
      && Fee(s'.blocks[|s.blocks|].transactions[0]) == (if c.Other? then 0 else fee)
      && Amount(s'.blocks[|s.blocks|].transactions[0])
         == Total(s'.blocks[|s.blocks|].transactions[0].inputs) - if c.Other? then 0 else fee
  {
    if c.Get? {
      ReceiveTotals(w, fee, s, c.amount);
    } else if c.Send? {
      SpendTotals(w, fee, s, c.amount);
    }
  }

  /** Nothing is created or lost: the unspent outputs are worth what was received minus what was sent and
      paid in fees, whatever the amounts and the fee. */
  lemma {:induction false} Conservation(w: World, fee: int, commands: seq<Command>)
    requires Run(w, fee, commands).Some?
    ensures Total(Run(w, fee, commands).value.utxos) == Balance(fee, commands)
  {
    if |commands| > 0 {
      var prefix, c := commands[..|commands| - 1], commands[|commands| - 1];
      Conservation(w, fee, prefix);
      StepTotals(w, fee, Run(w, fee, prefix).value, c);
    }
  }

  /** The commands before `n` have yielded the blocks through `n`. */
  lemma {:induction false} RunPrefix(w: World, fee: int, commands: seq<Command>, n: nat)
    requires Run(w, fee, commands).Some? && n <= |commands|
    ensures Run(w, fee, commands[..n]).Some?
    ensures Run(w, fee, commands).value.blocks[..n + 1] == Run(w, fee, commands[..n]).value.blocks
    decreases |commands|
  {
    if n == |commands| {
      assert commands[..n] == commands;
    } else {
      var before := commands[..|commands| - 1];
      RunPrefix(w, fee, before, n);
      assert before[..n] == commands[..n];
      var blocks := Run(w, fee, commands).value.blocks;
      assert blocks[..|commands|][..n + 1] == blocks[..n + 1];
    }
  }

  /** Block `n + 1` is the one that command `n` appends to what the commands before it have left. */
  lemma BlockOfCommand(w: World, fee: int, commands: seq<Command>, n: nat)
    requires Run(w, fee, commands).Some? && n < |commands|
    ensures Run(w, fee, commands[..n]).Some?
    ensures var before := Run(w, fee, commands[..n]).value;
      var after := Step(w, fee, before, commands[n]);
      after.Some? && |before.blocks| == n + 1 && Run(w, fee, commands).value.blocks[n + 1] == after.value.blocks[n + 1]
  {
    RunPrefix(w, fee, commands, n);
    RunPrefix(w, fee, commands, n + 1);
    assert commands[..n + 1][..n] == commands[..n];
    assert Run(w, fee, commands).value.blocks[n + 1] == Run(w, fee, commands).value.blocks[..n + 2][n + 1];
  }

  /** Every transaction that receives or sends pays exactly the fee. */
  lemma EveryFeeIsTheFee(w: World, fee: int, commands: seq<Command>, n: nat)
    requires Run(w, fee, commands).Some? && n < |commands|
    ensures var block := Run(w, fee, commands).value.blocks[n + 1];
      && |block.transactions| == 1
      && Fee(block.transactions[0]) == (if commands[n].Other? then 0 else fee)
      && Amount(block.transactions[0]) == Total(block.transactions[0].inputs) - if commands[n].Other? then 0 else fee
  {
    BlockOfCommand(w, fee, commands, n);
    StepTotals(w, fee, Run(w, fee, commands[..n]).value, commands[n]);
  }

  // ---------------------------------------------------------------------------------------------
  // Completeness of the picking
  // ---------------------------------------------------------------------------------------------

  /** The picked outputs are the shortest non-empty prefix that reaches the target, or everything. */
  lemma {:induction false} PickIsShortest(utxos: seq<Output>, target: int)
    ensures var k := PickCount(utxos, target);
      && (forall j :: 0 < j < k ==> Total(utxos[..j]) < target)
      && (k < |utxos| ==> Total(utxos[..k]) >= target)
      && (|utxos| > 0 ==> k > 0)
  {
    if |utxos| > 0 && utxos[0].value < target {
      var k := PickCount(utxos[1..], target - utxos[0].value);
      PickIsShortest(utxos[1..], target - utxos[0].value);
      forall j | 0 < j <= k + 1 ensures Total(utxos[..j]) == utxos[0].value + Total(utxos[1..][..j - 1]) {
        assert utxos[..j][1..] == utxos[1..][..j - 1];
      }
    } else if |utxos| > 0 {
      assert utxos[..1] == [utxos[0]];
    }
  }

  ghost predicate NonNegative(outputs: seq<Output>) {
    forall i :: 0 <= i < |outputs| ==> outputs[i].value >= 0
  }

  lemma {:induction false} TotalNonNegative(outputs: seq<Output>)
    requires NonNegative(outputs)
    ensures Total(outputs) >= 0
  {
    if |outputs| > 0 {
      TotalNonNegative(outputs[1..]);
    }
  }

  /** Received amounts are never negative in a chain of payments. */
  ghost predicate Payments(commands: seq<Command>) {
    forall i :: 0 <= i < |commands| && commands[i].Get? ==> commands[i].amount >= 0
  }

  lemma StepNonNegative(w: World, fee: int, s: State, c: Command)
    requires |s.blocks| > 0 && NonNegative(s.utxos) && (c.Get? ==> c.amount >= 0)
    ensures var r := Step(w, fee, s, c); r.Some? ==> NonNegative(r.value.utxos)
  {
  }

  lemma {:induction false} UtxosNonNegative(w: World, fee: int, commands: seq<Command>)
    requires Run(w, fee, commands).Some? && Payments(commands)
    ensures NonNegative(Run(w, fee, commands).value.utxos)
  {
    if |commands| > 0 {
      var prefix, c := commands[..|commands| - 1], commands[|commands| - 1];
      UtxosNonNegative(w, fee, prefix);
      StepNonNegative(w, fee, Run(w, fee, prefix).value, c);
    }
  }

  /** Over outputs of non-negative value, the picker reaches every target that their total reaches. */
  lemma PickReachesWhatIsThere(utxos: seq<Output>, target: int)
    requires NonNegative(utxos)
    ensures Total(utxos[..PickCount(utxos, target)]) < target <==> Total(utxos) < target
  {
    var k := PickCount(utxos, target);
    PickIsShortest(utxos, target);
    assert utxos == utxos[..k] + utxos[k..];
    TotalConcat(utxos[..k], utxos[k..]);
    TotalNonNegative(utxos[k..]);
  }

  lemma SpendRaises(w: World, fee: int, s: State, amount: int)
    requires |s.blocks| > 0 && NonNegative(s.utxos)
    ensures Spend(w, fee, s, amount).None? <==> Total(s.utxos) < fee + amount
  {
    PickReachesWhatIsThere(s.utxos, fee + amount);
  }

  /** A send raises exactly when it exceeds the balance: the oldest-first picker never misses funds. */
  lemma SendRaisesExactlyWhenShort(w: World, fee: int, commands: seq<Command>, amount: int)
    requires Run(w, fee, commands).Some? && Payments(commands)
    ensures Run(w, fee, commands + [Send(amount)]).None? <==> Balance(fee, commands) < amount + fee
  {
    RunSnoc(w, fee, commands, Send(amount));
    Conservation(w, fee, commands);
    UtxosNonNegative(w, fee, commands);
    SpendRaises(w, fee, Run(w, fee, commands).value, amount);
  }

  /** Command `n` sends more than the commands before it leave in the wallet. */
  ghost predicate Overdraws(fee: int, commands: seq<Command>, n: int)
    requires 0 <= n < |commands|
  {
    commands[n].Send? && Balance(fee, commands[..n]) < commands[n].amount + fee
  }

  lemma OverdraftRaises(w: World, fee: int, commands: seq<Command>, n: nat)
    requires Payments(commands) && n < |commands| && Overdraws(fee, commands, n)
    ensures Run(w, fee, commands).None?
  {
    if Run(w, fee, commands[..n]).None? {
      RaisedStays(w, fee, commands, n);
    } else {
      SendRaisesExactlyWhenShort(w, fee, commands[..n], commands[n].amount);
      assert commands[..n] + [Send(commands[n].amount)] == commands[..n + 1];
      RaisedStays(w, fee, commands, n + 1);
    }
  }

  lemma {:induction false} RaiseIsOverdraft(w: World, fee: int, commands: seq<Command>) returns (n: nat)
    requires Payments(commands) && Run(w, fee, commands).None?
    ensures n < |commands| && Overdraws(fee, commands, n)
  {
    var last := |commands| - 1;
    var before, c := commands[..last], commands[last];
    if Run(w, fee, before).None? {
      n := RaiseIsOverdraft(w, fee, before);
      assert before[..n] == commands[..n];
    } else {
      n := last;
      assert Step(w, fee, Run(w, fee, before).value, c).None?;
      assert before + [Send(c.amount)] == commands;
      SendRaisesExactlyWhenShort(w, fee, before, c.amount);
    }
  }

  /** A run raises exactly when some send exceeds the balance of the commands before it. */
  lemma RunRaisesExactlyWhenOverdrawn(w: World, fee: int, commands: seq<Command>)
    requires Payments(commands)
    ensures Run(w, fee, commands).None? <==> exists n :: 0 <= n < |commands| && Overdraws(fee, commands, n)
  {
    if Run(w, fee, commands).None? {
      var n := RaiseIsOverdraft(w, fee, commands);
      assert 0 <= n < |commands| && Overdraws(fee, commands, n);
    } else if n: nat :| n < |commands| && Overdraws(fee, commands, n) {
      OverdraftRaises(w, fee, commands, n);
    }
  }

  function Repeat(n: nat, c: Command): seq<Command> {
    if n == 0 then [] else Repeat(n - 1, c) + [c]
  }

  lemma BalanceSnoc(fee: int, commands: seq<Command>, c: Command)
    ensures Balance(fee, commands + [c]) == Balance(fee, commands) + Change(fee, c)
  {
    assert (commands + [c])[..|commands|] == commands;
  }

  lemma PaymentsSnoc(commands: seq<Command>, c: Command)
    requires Payments(commands) && (c.Get? ==> c.amount >= 0)
    ensures Payments(commands + [c])
  {
  }

  lemma MulStep(m: nat, x: int)
    requires m > 0
    ensures m * x == (m - 1) * x + x
  {
  }

  lemma {:induction false} BalanceRepeated(fee: int, commands: seq<Command>, m: nat, c: Command)
    ensures Balance(fee, commands + Repeat(m, c)) == Balance(fee, commands) + m * Change(fee, c)
  {
    if m == 0 {
      assert commands + [] == commands;
    } else {
      var almost, x := commands + Repeat(m - 1, c), Change(fee, c);
      BalanceRepeated(fee, commands, m - 1, c);
      BalanceSnoc(fee, almost, c);
      MulStep(m, x);
      assert commands + Repeat(m, c) == almost + [c];
    }
  }

  lemma {:induction false} RepeatedGets(w: World, fee: int, n: nat, a: nat)
    ensures Payments(Repeat(n, Get(a))) && Run(w, fee, Repeat(n, Get(a))).Some?
  {
    if n > 0 {
      RepeatedGets(w, fee, n - 1, a);
      PaymentsSnoc(Repeat(n - 1, Get(a)), Get(a));
      RunSnoc(w, fee, Repeat(n - 1, Get(a)), Get(a));
    }
  }

  /** The commands complete exactly when their book-keeping stays above water. */
  ghost predicate Covered(w: World, fee: nat, commands: seq<Command>) {
    Payments(commands) && (Run(w, fee, commands).Some? <==> Balance(fee, commands) >= 0)
  }

  lemma OneMoreSend(w: World, fee: nat, commands: seq<Command>, b: nat)
    requires Covered(w, fee, commands)
    ensures Covered(w, fee, commands + [Send(b)])
  {
    PaymentsSnoc(commands, Send(b));
    BalanceSnoc(fee, commands, Send(b));
    if Run(w, fee, commands).Some? {
      SendRaisesExactlyWhenShort(w, fee, commands, b);
    } else {
      RunSnoc(w, fee, commands, Send(b));
    }
  }

  /** Sends complete exactly when the balance covers them all. */
  lemma {:induction false} RepeatedSends(w: World, fee: nat, commands: seq<Command>, m: nat, b: nat)
    requires Covered(w, fee, commands)
    ensures Covered(w, fee, commands + Repeat(m, Send(b)))
  {
    if m == 0 {
      assert commands + [] == commands;
    } else {
      var almost := commands + Repeat(m - 1, Send(b));
      RepeatedSends(w, fee, commands, m - 1, b);
      OneMoreSend(w, fee, almost, b);
      assert commands + Repeat(m, Send(b)) == almost + [Send(b)];
    }
  }

  lemma GetsBalance(fee: nat, n: nat, a: nat)
    ensures Balance(fee, Repeat(n, Get(a))) == n * a >= 0
  {
    assert [] + Repeat(n, Get(a)) == Repeat(n, Get(a));
    BalanceRepeated(fee, [], n, Get(a));
  }

  lemma SendsBalance(fee: nat, commands: seq<Command>, m: nat, b: nat)
    ensures Balance(fee, commands + Repeat(m, Send(b))) == Balance(fee, commands) - m * (b + fee)
  {
    BalanceRepeated(fee, commands, m, Send(b));
    assert m * -(b + fee) == -(m * (b + fee));
  }

  /** `n` receptions of `a` cover `m` sends of `b` exactly when `m * (b + fee) <= n * a`. */
  lemma GetsThenSends(w: World, fee: nat, n: nat, a: nat, m: nat, b: nat)
    ensures Run(w, fee, Repeat(n, Get(a)) + Repeat(m, Send(b))).Some? <==> m * (b + fee) <= n * a
  {
    RepeatedGets(w, fee, n, a);
    GetsBalance(fee, n, a);
    SendsBalance(fee, Repeat(n, Get(a)), m, b);
    RepeatedSends(w, fee, Repeat(n, Get(a)), m, b);
  }
}
