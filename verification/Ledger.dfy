/** The block chain data of the tools: outputs, transactions, blocks, and how objects get numbered. */
module Ledger {
  import opened Outcomes

  // ---------------------------------------------------------------------------------------------
  // Finished data
  // ---------------------------------------------------------------------------------------------

  /** An output that belongs to a transaction: `(transactionHash, index)` identifies it. */
  datatype Output = Output(address: string, value: int, index: nat, transactionHash: string)

  datatype Header = Header(height: int, hash: string)

  /** An input is the output it spends; its own index is its position. */
  datatype Transaction = Transaction(hash: string, inputs: seq<Output>, outputs: seq<Output>, header: Header)

  datatype Block = Block(header: Header, parentHash: string, transactions: seq<Transaction>)

  function Total(outputs: seq<Output>): int {
    if |outputs| == 0 then 0 else outputs[0].value + Total(outputs[1..])
  }

  function Amount(t: Transaction): int {
    Total(t.outputs)
  }

  function Fee(t: Transaction): int {
    Total(t.inputs) - Amount(t)
  }

  lemma TotalOne(o: Output)
    ensures Total([o]) == o.value
  {
  }

  lemma {:induction false} TotalConcat(xs: seq<Output>, ys: seq<Output>)
    ensures Total(xs + ys) == Total(xs) + Total(ys)
  {
    if |xs| == 0 {
      assert xs + ys == ys;
    } else {
      assert (xs + ys)[1..] == xs[1..] + ys;
      TotalConcat(xs[1..], ys);
    }
  }

  // ---------------------------------------------------------------------------------------------
  // Chains
  // ---------------------------------------------------------------------------------------------

  /** Block `i` names the block before it as its parent, and is one higher. */
  ghost predicate LinkedAt(blocks: seq<Block>, i: nat)
    requires 0 < i < |blocks|
  {
    blocks[i].parentHash == blocks[i - 1].header.hash && blocks[i].header.height == blocks[i - 1].header.height + 1
  }

  function HashAt(blocks: seq<Block>, i: nat): string
    requires i < |blocks|
  {
    blocks[i].header.hash
  }

  /** Hashes identify blocks. */
  ghost predicate HashesDiffer(blocks: seq<Block>) {
    forall i: nat, j: nat :: i < j < |blocks| ==> HashAt(blocks, i) != HashAt(blocks, j)
  }

  ghost predicate CarriesHeader(b: Block) {
    forall t :: t in b.transactions ==> t.header == b.header
  }

  /** Hashes never repeat, and every transaction carries the header of its block. */
  ghost predicate Identified(blocks: seq<Block>) {
    HashesDiffer(blocks) && forall b :: b in blocks ==> CarriesHeader(b)
  }

  /** Heights count up, parents are the previous hashes, blocks are identified by their hashes, and no block
      has more than one transaction. */
  ghost predicate Linked(blocks: seq<Block>) {
    && (forall i :: 0 < i < |blocks| ==> LinkedAt(blocks, i))
    && Identified(blocks)
    && (forall b :: b in blocks ==> |b.transactions| <= 1)
  }

  // ---------------------------------------------------------------------------------------------
  // The objects that are numbered when a transaction is made of them
  // ---------------------------------------------------------------------------------------------

  class TransactionOutput {
    const address: string
    const value: int
    var index: Option<nat>
    var transactionHash: Option<string>

    constructor (address: string, value: int)
      ensures this.address == address && this.value == value && index.None? && transactionHash.None?
    {
      this.address, this.value := address, value;
      index, transactionHash := None, None;
    }

    method AddToTransaction(index: nat, hash: string)
      modifies this
      ensures this.index == Some(index) && this.transactionHash == Some(hash)
    {
      this.index, this.transactionHash := Some(index), Some(hash);
    }

    /** The finished output, once the object has been added to a transaction. */
    ghost function Finished(): Output
      requires index.Some? && transactionHash.Some?
      reads this
    {
      Output(address, value, index.value, transactionHash.value)
    }
  }

  class TransactionInput {
    const transactionOutput: TransactionOutput
    var index: Option<nat>

    constructor (output: TransactionOutput)
      ensures transactionOutput == output && index.None?
    {
      transactionOutput, index := output, None;
    }

    method AddToTransaction(index: nat)
      modifies this
      ensures this.index == Some(index)
    {
      this.index := Some(index);
    }
  }

  /** Among the first `n` objects, the one at `k` is not listed again after `k`. */
  ghost predicate LastAt<A>(xs: seq<A>, k: nat, n: nat) {
    k < n <= |xs| && forall j :: k < j < n ==> xs[j] != xs[k]
  }

  method NumberInputs(inputs: seq<TransactionInput>)
    modifies inputs
    ensures forall k: nat :: LastAt(inputs, k, |inputs|) ==> inputs[k].index == Some(k)
  {
    for n := 0 to |inputs|
      invariant forall k: nat :: LastAt(inputs, k, n) ==> inputs[k].index == Some(k)
    {
      inputs[n].AddToTransaction(n);
    }
  }

  method NumberOutputs(outputs: seq<TransactionOutput>, hash: string)
    modifies outputs
    ensures forall k: nat :: LastAt(outputs, k, |outputs|) ==>
              outputs[k].index == Some(k) && outputs[k].transactionHash == Some(hash)
  {
    for n := 0 to |outputs|
      invariant forall k: nat :: LastAt(outputs, k, n) ==>
                  outputs[k].index == Some(k) && outputs[k].transactionHash == Some(hash)
    {
      outputs[n].AddToTransaction(n, hash);
    }
  }

  /** What is known of outputs before they belong to a transaction. */
  function Drafts(outputs: seq<TransactionOutput>): seq<(string, int)> {
    seq(|outputs|, i requires 0 <= i < |outputs| => (outputs[i].address, outputs[i].value))
  }

  /** The outputs of a transaction, numbered in order. */
  function Numbered(drafts: seq<(string, int)>, hash: string): seq<Output> {
    seq(|drafts|, i requires 0 <= i < |drafts| => Output(drafts[i].0, drafts[i].1, i, hash))
  }

  class TransactionObject {
    const hash: string
    const inputs: seq<TransactionInput>
    const outputs: seq<TransactionOutput>

    /** Numbers the inputs and outputs in order. An object listed twice keeps its last number. */
    constructor (hash: string, inputs: seq<TransactionInput>, outputs: seq<TransactionOutput>)
      modifies inputs, outputs
      ensures this.hash == hash && this.inputs == inputs && this.outputs == outputs
      ensures forall k: nat :: LastAt(inputs, k, |inputs|) ==> inputs[k].index == Some(k)
      ensures forall k: nat :: LastAt(outputs, k, |outputs|) ==>
                outputs[k].index == Some(k) && outputs[k].transactionHash == Some(hash)
      ensures (forall i, j :: 0 <= i < j < |outputs| ==> outputs[i] != outputs[j]) ==>
                forall k: nat :: k < |outputs| ==>
                  && outputs[k].index.Some? && outputs[k].transactionHash.Some?
                  && outputs[k].Finished() == Numbered(Drafts(outputs), hash)[k]
    {
      this.hash, this.inputs, this.outputs := hash, inputs, outputs;
      new;
      NumberInputs(inputs);
      NumberOutputs(outputs, hash);
      assert (forall i, j :: 0 <= i < j < |outputs| ==> outputs[i] != outputs[j]) ==>
          forall k: nat :: k < |outputs| ==> LastAt(outputs, k, |outputs|);
    }
  }

  /** A block stamps its header on its transactions. */
  function MakeBlock(height: int, hash: string, parentHash: string, transactions: seq<Transaction>): (b: Block)
    ensures forall t :: t in b.transactions ==> t.header == b.header
  {
    var header := Header(height, hash);
    Block(header, parentHash, seq(|transactions|, i requires 0 <= i < |transactions| => transactions[i].(header := header)))
  }
}
