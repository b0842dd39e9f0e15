/** The explorer: block-wise truncated queries over a chain. */
module Explorer {
  import opened Outcomes
  import opened Ledger

  // ---------------------------------------------------------------------------------------------
  // The answer to a query, by blocks
  // ---------------------------------------------------------------------------------------------

  /** A transaction matches if one of its outputs pays a wanted address. Its inputs never match: the code
      looks for the input objects, not for their addresses, among the addresses. */
  predicate Matches(addresses: set<string>, t: Transaction) {
    exists o :: o in t.outputs && o.address in addresses
  }

  /** An input of the transaction spends from a wanted address. */
  predicate SpendsFrom(addresses: set<string>, t: Transaction) {
    exists o :: o in t.inputs && o.address in addresses
  }

  /** What one would expect a match to be: the transaction pays, or spends from, a wanted address. */
  predicate Touches(addresses: set<string>, t: Transaction) {
    Matches(addresses, t) || SpendsFrom(addresses, t)
  }

  /** The matches among the first `n` transactions, in order. */
  function MatchesAmong(addresses: set<string>, transactions: seq<Transaction>, n: nat): seq<Transaction>
    requires n <= |transactions|
  {
    if n == 0 then []
    else
      MatchesAmong(addresses, transactions, n - 1)
      + if Matches(addresses, transactions[n - 1]) then [transactions[n - 1]] else []
  }

  function MatchesOf(addresses: set<string>, b: Block): seq<Transaction> {
    MatchesAmong(addresses, b.transactions, |b.transactions|)
  }

  /** All matches in the blocks from `begin` up to and excluding `end`, in order. */
  function MatchesIn(addresses: set<string>, blocks: seq<Block>, begin: nat, end: nat): seq<Transaction>
    requires end <= |blocks|
    decreases end
  {
    if end <= begin then []
    else MatchesIn(addresses, blocks, begin, end - 1) + MatchesOf(addresses, blocks[end - 1])
  }

  lemma {:induction false} SplitRange(addresses: set<string>, blocks: seq<Block>, a: nat, b: nat, c: nat)
    requires a <= b <= c <= |blocks|
    ensures MatchesIn(addresses, blocks, a, c) == MatchesIn(addresses, blocks, a, b) + MatchesIn(addresses, blocks, b, c)
    decreases c
  {
    if b < c {
      SplitRange(addresses, blocks, a, b, c - 1);
    }
  }

  lemma {:induction false} MatchesAreMembers(addresses: set<string>, transactions: seq<Transaction>, n: nat)
    requires n <= |transactions|
    ensures forall t :: t in MatchesAmong(addresses, transactions, n) ==> t in transactions
    ensures |MatchesAmong(addresses, transactions, n)| <= n
  {
    if n > 0 {
      MatchesAreMembers(addresses, transactions, n - 1);
    }
  }

  /** How many matches lie in the blocks from `start` through `k`. */
  ghost function CountThrough(addresses: set<string>, blocks: seq<Block>, start: nat, k: nat): nat
    requires start <= k < |blocks|
  {
    |MatchesIn(addresses, blocks, start, k + 1)|
  }

  /** The block that completes the page: the first one after which the running count reaches the limit. */
  ghost predicate PageEndsAt(addresses: set<string>, blocks: seq<Block>, start: nat, limit: int, k: nat) {
    && start <= k < |blocks|
    && CountThrough(addresses, blocks, start, k) >= limit
    && forall j :: start <= j < k ==> CountThrough(addresses, blocks, start, j) < limit
  }

  ghost predicate NoPageEnd(addresses: set<string>, blocks: seq<Block>, start: nat, limit: int) {
    forall j :: start <= j < |blocks| ==> CountThrough(addresses, blocks, start, j) < limit
  }

  /** The answer: all matches up to the end of the page, flagged if a match exists after it; without such
      an end, all matches. A block is never split. */
  ghost predicate Answers(addresses: set<string>, blocks: seq<Block>, start: nat, limit: int, res: seq<Transaction>, truncated: bool)
    requires start <= |blocks|
  {
    || (NoPageEnd(addresses, blocks, start, limit) && res == MatchesIn(addresses, blocks, start, |blocks|) && !truncated)
    || exists k: nat :: AnswersThrough(addresses, blocks, start, limit, k, res, truncated)
  }

  ghost predicate AnswersThrough(addresses: set<string>, blocks: seq<Block>, start: nat, limit: int, k: nat,
                                 res: seq<Transaction>, truncated: bool)
  {
    && PageEndsAt(addresses, blocks, start, limit, k)
    && res == MatchesIn(addresses, blocks, start, k + 1)
    && truncated == (|MatchesIn(addresses, blocks, k + 1, |blocks|)| > 0)
  }

  /** The block-level answer leaves no choice. */
  lemma AnswerUnique(addresses: set<string>, blocks: seq<Block>, start: nat, limit: int,
                     res: seq<Transaction>, truncated: bool, res': seq<Transaction>, truncated': bool)
    requires start <= |blocks|
    requires Answers(addresses, blocks, start, limit, res, truncated)
    requires Answers(addresses, blocks, start, limit, res', truncated')
    ensures res == res' && truncated == truncated'
  {
  }

  // ---------------------------------------------------------------------------------------------
  // The explorer in place
  // ---------------------------------------------------------------------------------------------

  /** The index maps every hash of the first `n` blocks to the last of these blocks that has it. */
  ghost predicate IndexesFirst(index: map<string, nat>, blocks: seq<Block>, n: nat)
    requires n <= |blocks|
  {
    && (forall i: nat :: i < n ==> HashAt(blocks, i) in index && i <= index[HashAt(blocks, i)])
    && forall h :: h in index ==> index[h] < n && HashAt(blocks, index[h]) == h
  }

  ghost predicate Indexes(index: map<string, nat>, blocks: seq<Block>) {
    IndexesFirst(index, blocks, |blocks|)
  }

  /** `IndexError` is raised by a query without a block hash on an empty chain. */
  datatype Reply = Page(transactions: seq<Transaction>, truncated: bool) | IndexError

  class Explorer {
    const blocks: seq<Block>
    var index: map<string, nat>

    constructor (blocks: seq<Block>)
      ensures this.blocks == blocks && Indexes(index, blocks)
    {
      this.blocks := blocks;
      this.index := map[];
      new;
      for i := 0 to |blocks|
        invariant IndexesFirst(index, blocks, i)
      {
        index := index[blocks[i].header.hash := i];
        assert HashAt(blocks, i) == blocks[i].header.hash;
      }
    }

    method GetTransactions(addresses: set<string>, blockHash: Option<string>, limit: int) returns (r: Reply)
      requires Indexes(index, blocks)
      ensures r.IndexError? <==> blockHash.None? && |blocks| == 0
      ensures r.Page? ==>
                var hash := if blockHash.Some? then blockHash.value else blocks[0].header.hash;
                if hash !in index then r == Page([], false)
                else Answers(addresses, blocks, index[hash], limit, r.transactions, r.truncated)
    {
      var hash;
      match blockHash {
        case Some(h) =>
          hash := h;
        case None =>
          if |blocks| == 0 {
            return IndexError;
          }
          hash := blocks[0].header.hash;
      }
      if hash !in index {
        return Page([], false);
      }
      var res, truncated := Scan(addresses, index[hash], limit);
      return Page(res, truncated);
    }

    /** The two nested loops, with their return from the middle. */
    method Scan(addresses: set<string>, start: nat, limit: int) returns (res: seq<Transaction>, truncated: bool)
      requires start < |blocks|
      ensures Answers(addresses, blocks, start, limit, res, truncated)
    {
      res := [];
      var truncate := false;
      for i := start to |blocks|
        invariant Scanned(addresses, blocks, start, limit, i, res, truncate)
      {
        var transactions := blocks[i].transactions;
        ghost var found := res;
        for n := 0 to |transactions|
          invariant truncate ==> res == found && MatchesAmong(addresses, transactions, n) == []
          invariant !truncate ==> res == found + MatchesAmong(addresses, transactions, n)
        {
          if Matches(addresses, transactions[n]) {
            if truncate {
              MatchAfterPage(addresses, blocks, start, limit, i, res, n);
              return res, true;
            }
            res := res + [transactions[n]];
          }
        }
        BlockScanned(addresses, blocks, start, limit, i, found, truncate, res);
        if |res| >= limit {
          truncate := true;
        }
      }
      truncated := false;
      ChainScanned(addresses, blocks, start, limit, res, truncate);
    }
  }

  /** The state of the scan before block `i`. Before truncation, no page end was met and everything found
      is kept. After it, the page has ended and nothing matched since. */
  ghost predicate Scanned(addresses: set<string>, blocks: seq<Block>, start: nat, limit: int, i: nat, res: seq<Transaction>, truncate: bool)
    requires start <= i <= |blocks|
  {
    if truncate then
      exists end: nat :: end < i && PageEndsAt(addresses, blocks, start, limit, end)
                    && res == MatchesIn(addresses, blocks, start, end + 1) && MatchesIn(addresses, blocks, end + 1, i) == []
    else
      && res == MatchesIn(addresses, blocks, start, i)
      && forall j :: start <= j < i ==> CountThrough(addresses, blocks, start, j) < limit
  }

  lemma BlockScanned(addresses: set<string>, blocks: seq<Block>, start: nat, limit: int, i: nat,
                     found: seq<Transaction>, truncate: bool, res: seq<Transaction>)
    requires start <= i < |blocks| && Scanned(addresses, blocks, start, limit, i, found, truncate)
    requires truncate ==> res == found && MatchesOf(addresses, blocks[i]) == []
    requires !truncate ==> res == found + MatchesOf(addresses, blocks[i])
    ensures Scanned(addresses, blocks, start, limit, i + 1, res, truncate || |res| >= limit)
  {
    if truncate {
      var end: nat :| end < i && PageEndsAt(addresses, blocks, start, limit, end)
        && found == MatchesIn(addresses, blocks, start, end + 1) && MatchesIn(addresses, blocks, end + 1, i) == [];
      assert MatchesIn(addresses, blocks, end + 1, i + 1) == [];
    } else {
      assert res == MatchesIn(addresses, blocks, start, i + 1);
      if |res| >= limit {
        assert CountThrough(addresses, blocks, start, i) >= limit;
        assert PageEndsAt(addresses, blocks, start, limit, i);
      }
    }
  }

  lemma MatchAfterPage(addresses: set<string>, blocks: seq<Block>, start: nat, limit: int, i: nat, res: seq<Transaction>, n: nat)
    requires start <= i < |blocks| && Scanned(addresses, blocks, start, limit, i, res, true)
    requires n < |blocks[i].transactions| && Matches(addresses, blocks[i].transactions[n])
    ensures Answers(addresses, blocks, start, limit, res, true)
  {
    var end: nat :| end < i && PageEndsAt(addresses, blocks, start, limit, end)
      && res == MatchesIn(addresses, blocks, start, end + 1) && MatchesIn(addresses, blocks, end + 1, i) == [];
    MatchFollows(addresses, blocks, end, i, n);
    assert AnswersThrough(addresses, blocks, start, limit, end, res, true);
  }

  lemma ChainScanned(addresses: set<string>, blocks: seq<Block>, start: nat, limit: int, res: seq<Transaction>, truncate: bool)
    requires start <= |blocks| && Scanned(addresses, blocks, start, limit, |blocks|, res, truncate)
    ensures Answers(addresses, blocks, start, limit, res, false)
  {
    if truncate {
      var end: nat :| end < |blocks| && PageEndsAt(addresses, blocks, start, limit, end)
        && res == MatchesIn(addresses, blocks, start, end + 1) && MatchesIn(addresses, blocks, end + 1, |blocks|) == [];
      assert AnswersThrough(addresses, blocks, start, limit, end, res, false);
    }
  }

  lemma {:induction false} MatchStays(addresses: set<string>, transactions: seq<Transaction>, n: nat, end: nat)
    requires n < end <= |transactions| && Matches(addresses, transactions[n])
    ensures MatchesAmong(addresses, transactions, end) != []
  {
    if n < end - 1 {
      MatchStays(addresses, transactions, n, end - 1);
    }
  }

  /** A matching transaction in block `i` is a match after every earlier block. */
  lemma MatchFollows(addresses: set<string>, blocks: seq<Block>, end: nat, i: nat, n: nat)
    requires end < i < |blocks| && n < |blocks[i].transactions| && Matches(addresses, blocks[i].transactions[n])
    ensures |MatchesIn(addresses, blocks, end + 1, |blocks|)| > 0
  {
    MatchStays(addresses, blocks[i].transactions, n, |blocks[i].transactions|);
    SplitRange(addresses, blocks, end + 1, i + 1, |blocks|);
  }

  // ---------------------------------------------------------------------------------------------
  // An answer, transaction by transaction
  // ---------------------------------------------------------------------------------------------

  /** The place of a transaction: its block, and its number in the block. */
  type Place = (nat, nat)

  predicate Before(p: Place, q: Place) {
    p.0 < q.0 || (p.0 == q.0 && p.1 < q.1)
  }

  /** At this place stands a transaction with an output that pays a wanted address. */
  ghost predicate PaysAt(addresses: set<string>, blocks: seq<Block>, p: Place) {
    && p.0 < |blocks| && p.1 < |blocks[p.0].transactions|
    && exists i :: 0 <= i < |blocks[p.0].transactions[p.1].outputs| && blocks[p.0].transactions[p.1].outputs[i].address in addresses
  }

  /** `res` are, in order, the transactions at the places `ps`: all the paying ones in the blocks from `begin`
      up to and excluding `end`, and no other. */
  ghost predicate Lists(addresses: set<string>, blocks: seq<Block>, begin: nat, end: nat, ps: seq<Place>, res: seq<Transaction>) {
    && |ps| == |res|
    && (forall i, j :: 0 <= i < j < |ps| ==> Before(ps[i], ps[j]))
    && (forall i :: 0 <= i < |ps| ==> PaysAt(addresses, blocks, ps[i]) && begin <= ps[i].0 < end)
    && (forall i :: 0 <= i < |ps| ==> PaysAt(addresses, blocks, ps[i]) && res[i] == blocks[ps[i].0].transactions[ps[i].1])
    && (forall p: Place :: PaysAt(addresses, blocks, p) && begin <= p.0 < end ==> p in ps)
  }

  lemma MatchesPays(addresses: set<string>, blocks: seq<Block>, p: Place)
    requires p.0 < |blocks| && p.1 < |blocks[p.0].transactions|
    ensures Matches(addresses, blocks[p.0].transactions[p.1]) <==> PaysAt(addresses, blocks, p)
  {
    var t := blocks[p.0].transactions[p.1];
    if Matches(addresses, t) {
      var o :| o in t.outputs && o.address in addresses;
      var i :| 0 <= i < |t.outputs| && t.outputs[i] == o;
      assert t.outputs[i].address in addresses;
    }
    if i :| 0 <= i < |t.outputs| && t.outputs[i].address in addresses {
      assert t.outputs[i] in t.outputs;
    }
  }

  /** The places in block `b` of the matches among its first `n` transactions. */
  lemma {:induction false} ListAmong(addresses: set<string>, blocks: seq<Block>, b: nat, n: nat) returns (ps: seq<Place>)
    requires b < |blocks| && n <= |blocks[b].transactions|
    ensures var res := MatchesAmong(addresses, blocks[b].transactions, n);
      && |ps| == |res|
      && (forall i, j :: 0 <= i < j < |ps| ==> Before(ps[i], ps[j]))
      && (forall i :: 0 <= i < |ps| ==> PaysAt(addresses, blocks, ps[i]) && ps[i].0 == b && ps[i].1 < n
                                        && res[i] == blocks[b].transactions[ps[i].1])
      && (forall p: Place :: PaysAt(addresses, blocks, p) && p.0 == b && p.1 < n ==> p in ps)
  {
    ps := [];
    if n > 0 {
      ps := ListAmong(addresses, blocks, b, n - 1);
      MatchesPays(addresses, blocks, (b, n - 1));
      if Matches(addresses, blocks[b].transactions[n - 1]) {
        ps := ps + [(b, n - 1)];
      }
    }
  }

  lemma ListBlock(addresses: set<string>, blocks: seq<Block>, b: nat) returns (ps: seq<Place>)
    requires b < |blocks|
    ensures Lists(addresses, blocks, b, b + 1, ps, MatchesOf(addresses, blocks[b]))
  {
    ps := ListAmong(addresses, blocks, b, |blocks[b].transactions|);
  }

  lemma JoinListings(addresses: set<string>, blocks: seq<Block>, begin: nat, mid: nat, end: nat,
                     ps: seq<Place>, res: seq<Transaction>, qs: seq<Place>, more: seq<Transaction>)
    requires begin <= mid <= end
    requires Lists(addresses, blocks, begin, mid, ps, res) && Lists(addresses, blocks, mid, end, qs, more)
    ensures Lists(addresses, blocks, begin, end, ps + qs, res + more)
  {
    var all, found := ps + qs, res + more;
    forall i | 0 <= i < |all| ensures PaysAt(addresses, blocks, all[i]) && begin <= all[i].0 < end {
      assert all[i] == if i < |ps| then ps[i] else qs[i - |ps|];
    }
    forall i, j | 0 <= i < j < |all| ensures Before(all[i], all[j]) {
      assert all[i] == if i < |ps| then ps[i] else qs[i - |ps|];
      assert all[j] == if j < |ps| then ps[j] else qs[j - |ps|];
    }
  }

  /** Matches are listed in the order of the chain, all of them and no other. */
  lemma {:induction false} MatchesAreListed(addresses: set<string>, blocks: seq<Block>, begin: nat, end: nat) returns (ps: seq<Place>)
    requires end <= |blocks|
    ensures Lists(addresses, blocks, begin, end, ps, MatchesIn(addresses, blocks, begin, end))
    decreases end
  {
    if begin < end {
      var earlier := MatchesAreListed(addresses, blocks, begin, end - 1);
      var own := ListBlock(addresses, blocks, end - 1);
      ps := earlier + own;
      JoinListings(addresses, blocks, begin, end - 1, end, earlier, MatchesIn(addresses, blocks, begin, end - 1),
                   own, MatchesOf(addresses, blocks[end - 1]));
    } else {
      ps := [];
    }
  }

  /** The first block after those that an answer covers. */
  lemma AnswerEnd(addresses: set<string>, blocks: seq<Block>, start: nat, limit: int, res: seq<Transaction>, truncated: bool)
    returns (end: nat)
    requires start <= |blocks| && Answers(addresses, blocks, start, limit, res, truncated)
    ensures start <= end <= |blocks| && res == MatchesIn(addresses, blocks, start, end)
    ensures truncated <==> |MatchesIn(addresses, blocks, end, |blocks|)| > 0
    ensures truncated ==> end > start && PageEndsAt(addresses, blocks, start, limit, end - 1)
  {
    if k: nat :| AnswersThrough(addresses, blocks, start, limit, k, res, truncated) {
      end := k + 1;
    } else {
      end := |blocks|;
    }
  }

  /** An answer, in the plainest terms: up to some block, all transactions with an output on a wanted address, in
      the order of the chain, and no other. If nothing pays after that block the answer is not truncated.
      Otherwise it is, it has at least `limit` transactions, and fewer of them lie before the last block. */
  lemma AnswerIsListed(addresses: set<string>, blocks: seq<Block>, start: nat, limit: int, res: seq<Transaction>, truncated: bool)
    returns (end: nat, ps: seq<Place>)
    requires start <= |blocks| && Answers(addresses, blocks, start, limit, res, truncated)
    ensures end <= |blocks| && Lists(addresses, blocks, start, end, ps, res)
    ensures truncated <==> exists p: Place :: p.0 >= end && PaysAt(addresses, blocks, p)
    ensures truncated ==> |res| >= limit && forall m :: 0 <= m < |ps| && ps[m].0 < end - 1 ==> m + 1 < limit
  {
    end := AnswerEnd(addresses, blocks, start, limit, res, truncated);
    ps := MatchesAreListed(addresses, blocks, start, end);
    SomethingFollows(addresses, blocks, end);
    if truncated {
      assert CountThrough(addresses, blocks, start, end - 1) >= limit;
      EarlierAreFewer(addresses, blocks, start, limit, end - 1, ps);
    }
  }

  lemma SomethingFollows(addresses: set<string>, blocks: seq<Block>, end: nat)
    requires end <= |blocks|
    ensures |MatchesIn(addresses, blocks, end, |blocks|)| > 0 <==> exists p: Place :: p.0 >= end && PaysAt(addresses, blocks, p)
  {
    var ps := MatchesAreListed(addresses, blocks, end, |blocks|);
    if |ps| > 0 {
      assert PaysAt(addresses, blocks, ps[0]) && ps[0].0 >= end;
    }
  }

  lemma EarlierAreFewer(addresses: set<string>, blocks: seq<Block>, start: nat, limit: int, k: nat, ps: seq<Place>)
    requires PageEndsAt(addresses, blocks, start, limit, k)
    requires Lists(addresses, blocks, start, k + 1, ps, MatchesIn(addresses, blocks, start, k + 1))
    ensures forall m :: 0 <= m < |ps| && ps[m].0 < k ==> m + 1 < limit
  {
    if k > start {
      assert CountThrough(addresses, blocks, start, k - 1) < limit;
      forall m | 0 <= m < |ps| && ps[m].0 < k ensures m + 1 < limit {
        ListedWithin(addresses, blocks, start, k, ps, m);
      }
    }
  }

  /** The place of the `m`-th match lies before block `k` only if that many matches do. */
  lemma ListedWithin(addresses: set<string>, blocks: seq<Block>, start: nat, k: nat, ps: seq<Place>, m: nat)
    requires start <= k < |blocks| && m < |ps| && ps[m].0 < k
    requires Lists(addresses, blocks, start, k + 1, ps, MatchesIn(addresses, blocks, start, k + 1))
    ensures m < |MatchesIn(addresses, blocks, start, k)|
  {
    var earlier := MatchesAreListed(addresses, blocks, start, k);
    var own := ListBlock(addresses, blocks, k);
    SameListing(ps, earlier + own);
    assert forall j :: |earlier| <= j < |ps| ==> ps[j] == own[j - |earlier|] && ps[j].0 == k;
  }

  /** A listing leaves no choice. */
  lemma SameListing(ps: seq<Place>, qs: seq<Place>)
    requires (forall i, j :: 0 <= i < j < |ps| ==> Before(ps[i], ps[j])) && (forall i, j :: 0 <= i < j < |qs| ==> Before(qs[i], qs[j]))
    requires forall p: Place :: p in ps <==> p in qs
    ensures ps == qs
  {
    SameAscending(ps, qs, 0);
  }

  lemma {:induction false} SameAscending(ps: seq<Place>, qs: seq<Place>, n: nat)
    requires (forall i, j :: 0 <= i < j < |ps| ==> Before(ps[i], ps[j])) && (forall i, j :: 0 <= i < j < |qs| ==> Before(qs[i], qs[j]))
    requires forall p: Place :: p in ps <==> p in qs
    requires n <= |ps| && n <= |qs| && ps[..n] == qs[..n]
    ensures ps == qs
    decreases |ps| - n
  {
    assert n < |ps| ==> ps[n] in qs;
    assert n < |qs| ==> qs[n] in ps;
    if n < |ps| && n < |qs| {
      var i :| 0 <= i < |qs| && qs[i] == ps[n];
      var j :| 0 <= j < |ps| && ps[j] == qs[n];
      assert i >= n && j >= n;
      assert ps[n] == qs[n];
      assert ps[..n + 1] == ps[..n] + [ps[n]] && qs[..n + 1] == qs[..n] + [qs[n]];
      SameAscending(ps, qs, n + 1);
    }
  }
}
