/**
 Downloading every match by paging: ask again from the block of the last transaction received, and drop
 the repeated boundary block, until an answer is not truncated.
 */
module Paging {
  import opened Outcomes
  import opened Ledger
  import opened Wallet
  import opened WalletHistory
  import opened Explorer

  /** The end of the page that starts at `start`, looked for from block `from` on. */
  ghost function PageEnd(addresses: set<string>, blocks: seq<Block>, start: nat, limit: int, from: nat): (r: Option<nat>)
    requires start <= from <= |blocks|
    ensures r.Some? ==> from <= r.value < |blocks| && CountThrough(addresses, blocks, start, r.value) >= limit
    ensures forall j :: from <= j < (if r.Some? then r.value else |blocks|) ==> CountThrough(addresses, blocks, start, j) < limit
    decreases |blocks| - from
  {
    if from == |blocks| then None
    else if CountThrough(addresses, blocks, start, from) >= limit then Some(from)
    else PageEnd(addresses, blocks, start, limit, from + 1)
  }

  /** The explorer's answer as a function of the starting block. */
  ghost function Query(addresses: set<string>, blocks: seq<Block>, start: nat, limit: int): (r: Reply)
    requires start <= |blocks|
    ensures r.Page?
  {
    var end := PageEnd(addresses, blocks, start, limit, start);
    if end.None? then Page(MatchesIn(addresses, blocks, start, |blocks|), false)
    else Page(MatchesIn(addresses, blocks, start, end.value + 1), |MatchesIn(addresses, blocks, end.value + 1, |blocks|)| > 0)
  }

  /** The last of the first `n` blocks that has the hash: the one that the explorer's index gives. */
  ghost function LastWith(blocks: seq<Block>, n: nat, hash: string): (r: Option<nat>)
    requires n <= |blocks|
    ensures r.Some? ==> r.value < n && HashAt(blocks, r.value) == hash
  {
    if n == 0 then None
    else if HashAt(blocks, n - 1) == hash then Some(n - 1)
    else LastWith(blocks, n - 1, hash)
  }

  lemma QueryAnswers(addresses: set<string>, blocks: seq<Block>, start: nat, limit: int)
    requires start <= |blocks|
    ensures var page := Query(addresses, blocks, start, limit);
      Answers(addresses, blocks, start, limit, page.transactions, page.truncated)
  {
    var end := PageEnd(addresses, blocks, start, limit, start);
    if end.Some? {
      var page := Query(addresses, blocks, start, limit);
      assert PageEndsAt(addresses, blocks, start, limit, end.value);
      assert AnswersThrough(addresses, blocks, start, limit, end.value, page.transactions, page.truncated);
    } else {
      assert NoPageEnd(addresses, blocks, start, limit);
    }
  }

  lemma {:induction false} LastWithIs(blocks: seq<Block>, n: nat, hash: string, k: nat)
    requires k < n <= |blocks| && HashAt(blocks, k) == hash
    requires forall i: nat :: k < i < n ==> HashAt(blocks, i) != hash
    ensures LastWith(blocks, n, hash) == Some(k)
  {
    if k < n - 1 {
      assert HashAt(blocks, n - 1) != hash;
      LastWithIs(blocks, n - 1, hash, k);
    }
  }

  lemma IndexedBlock(index: map<string, nat>, blocks: seq<Block>, hash: string)
    requires Indexes(index, blocks) && hash in index
    ensures LastWith(blocks, |blocks|, hash) == Some(index[hash])
  {
    var k := index[hash];
    forall i: nat | k < i < |blocks| ensures HashAt(blocks, i) != hash {
      assert i <= index[HashAt(blocks, i)];
    }
    LastWithIs(blocks, |blocks|, hash, k);
  }

  /** The explorer's method returns this answer, from the last block that has the hash. */
  lemma QueryIsTheExplorer(index: map<string, nat>, addresses: set<string>, blocks: seq<Block>, hash: string, limit: int, reply: Reply)
    requires Indexes(index, blocks) && hash in index && reply.Page?
    requires Answers(addresses, blocks, index[hash], limit, reply.transactions, reply.truncated)
    ensures LastWith(blocks, |blocks|, hash).Some? && reply == Query(addresses, blocks, LastWith(blocks, |blocks|, hash).value, limit)
  {
    IndexedBlock(index, blocks, hash);
    OnlyAnswer(addresses, blocks, index[hash], limit, reply);
  }

  lemma OnlyAnswer(addresses: set<string>, blocks: seq<Block>, start: nat, limit: int, reply: Reply)
    requires start <= |blocks| && reply.Page? && Answers(addresses, blocks, start, limit, reply.transactions, reply.truncated)
    ensures reply == Query(addresses, blocks, start, limit)
  {
    var page := Query(addresses, blocks, start, limit);
    QueryAnswers(addresses, blocks, start, limit);
    AnswerUnique(addresses, blocks, start, limit, reply.transactions, reply.truncated, page.transactions, page.truncated);
  }

  // ---------------------------------------------------------------------------------------------
  // A download
  // ---------------------------------------------------------------------------------------------

  /** `start` is the block to ask from; `first` holds before the first answer. */
  datatype Session = Session(start: nat, first: bool, received: seq<Transaction>, done: bool)

  ghost function Drop(ts: seq<Transaction>, n: nat): seq<Transaction> {
    if n <= |ts| then ts[n..] else []
  }

  /** What has been received, joined with a page without the block that both have. */
  ghost function Joined(addresses: set<string>, blocks: seq<Block>, s: Session, page: seq<Transaction>): seq<Transaction>
    requires s.start < |blocks|
  {
    if s.first then page else s.received + Drop(page, |MatchesOf(addresses, blocks[s.start])|)
  }

  /** How a client picks the block to ask from next: the block of the last transaction it has received. */
  type Client = seq<Transaction> -> nat

  ghost predicate AsksFromLast(blocks: seq<Block>, client: Client) {
    forall page: seq<Transaction> {:trigger client(page)} :: |page| > 0 ==>
      var last := LastWith(blocks, |blocks|, page[|page| - 1].header.hash);
      last.Some? ==> client(page) == last.value
  }

  ghost function Round(addresses: set<string>, blocks: seq<Block>, limit: int, client: Client, s: Session): Session {
    if s.done || s.start >= |blocks| then s
    else
      var page := Query(addresses, blocks, s.start, limit);
      var received := Joined(addresses, blocks, s, page.transactions);
      if page.truncated then Session(client(page.transactions), false, received, false)
      else Session(s.start, false, received, true)
  }

  ghost function Download(addresses: set<string>, blocks: seq<Block>, limit: int, client: Client, start: nat, rounds: nat): Session {
    if rounds == 0 then Session(start, true, [], false)
    else Round(addresses, blocks, limit, client, Download(addresses, blocks, limit, client, start, rounds - 1))
  }

  lemma LastWithBlock(blocks: seq<Block>, k: nat)
    requires HashesDiffer(blocks) && k < |blocks|
    ensures LastWith(blocks, |blocks|, blocks[k].header.hash) == Some(k)
  {
    LastWithIs(blocks, |blocks|, HashAt(blocks, k), k);
  }

  /** The last transaction of a page lies in the block that ends the page. */
  lemma PageEndsWithItsBlock(addresses: set<string>, blocks: seq<Block>, start: nat, limit: int, k: nat)
    requires limit >= 1 && Identified(blocks) && PageEndsAt(addresses, blocks, start, limit, k)
    ensures var res := MatchesIn(addresses, blocks, start, k + 1);
      |res| > 0 && LastWith(blocks, |blocks|, res[|res| - 1].header.hash) == Some(k)
  {
    var before, own := MatchesIn(addresses, blocks, start, k), MatchesOf(addresses, blocks[k]);
    assert |before| < limit by {
      if start < k {
        assert CountThrough(addresses, blocks, start, k - 1) < limit;
      } else {
        assert MatchesIn(addresses, blocks, start, k) == [];
      }
    }
    assert CountThrough(addresses, blocks, start, k) >= limit;
    MatchesAreMembers(addresses, blocks[k].transactions, |blocks[k].transactions|);
    var t := own[|own| - 1];
    assert t in own && t in blocks[k].transactions && blocks[k] in blocks && CarriesHeader(blocks[k]);
    LastWithBlock(blocks, k);
  }

  // ---------------------------------------------------------------------------------------------
  // What has been received is a gap-free beginning of the matches
  // ---------------------------------------------------------------------------------------------

  ghost function Expected(addresses: set<string>, blocks: seq<Block>, start: nat, s: Session): seq<Transaction>
    requires s.start < |blocks|
  {
    if s.done then MatchesIn(addresses, blocks, start, |blocks|)
    else if s.first then []
    else MatchesIn(addresses, blocks, start, s.start + 1)
  }

  ghost predicate InStep(addresses: set<string>, blocks: seq<Block>, start: nat, s: Session) {
    && start <= s.start < |blocks|
    && (s.first ==> s.start == start && !s.done)
    && s == s.(received := Expected(addresses, blocks, start, s))
  }

  lemma DropFirst(xs: seq<Transaction>, ys: seq<Transaction>)
    ensures Drop(xs + ys, |xs|) == ys
  {
  }

  /** A page from block `b` without `b` continues what was received through `b`. */
  lemma JoinLater(addresses: set<string>, blocks: seq<Block>, start: nat, b: nat, c: nat)
    requires start <= b < c <= |blocks|
    ensures MatchesIn(addresses, blocks, start, b + 1) + Drop(MatchesIn(addresses, blocks, b, c), |MatchesOf(addresses, blocks[b])|)
            == MatchesIn(addresses, blocks, start, c)
  {
    var own := MatchesOf(addresses, blocks[b]);
    assert MatchesIn(addresses, blocks, b, b + 1) == own;
    SplitRange(addresses, blocks, b, b + 1, c);
    SplitRange(addresses, blocks, start, b + 1, c);
    DropFirst(own, MatchesIn(addresses, blocks, b + 1, c));
  }

  /** Joining an answer that reaches up to block `c` to what was received before. */
  lemma JoinPage(addresses: set<string>, blocks: seq<Block>, start: nat, s: Session, c: nat)
    requires InStep(addresses, blocks, start, s) && !s.done && s.start < c <= |blocks|
    ensures Joined(addresses, blocks, s, MatchesIn(addresses, blocks, s.start, c)) == MatchesIn(addresses, blocks, start, c)
  {
    if !s.first {
      JoinLater(addresses, blocks, start, s.start, c);
    }
  }

  /** The client resumes at the block that ended the page. */
  ghost predicate ResumesAtEnds(addresses: set<string>, blocks: seq<Block>, limit: int, client: Client) {
    forall start: nat :: start < |blocks| && PageEnd(addresses, blocks, start, limit, start).Some? ==>
      var k := PageEnd(addresses, blocks, start, limit, start).value;
      client(MatchesIn(addresses, blocks, start, k + 1)) == k
  }

  lemma LastResumesAtEnds(addresses: set<string>, blocks: seq<Block>, limit: int, client: Client)
    requires limit >= 1 && Identified(blocks) && AsksFromLast(blocks, client)
    ensures ResumesAtEnds(addresses, blocks, limit, client)
  {
    forall start: nat | start < |blocks| && PageEnd(addresses, blocks, start, limit, start).Some?
      ensures var k := PageEnd(addresses, blocks, start, limit, start).value;
        client(MatchesIn(addresses, blocks, start, k + 1)) == k
    {
      PageEndsWithItsBlock(addresses, blocks, start, limit, PageEnd(addresses, blocks, start, limit, start).value);
    }
  }

  // ---------------------------------------------------------------------------------------------
  // The trail of blocks that a download visits
  // ---------------------------------------------------------------------------------------------

  /** Where the next question starts after one from block `b`; none after an answer that is not truncated. */
  ghost function Stop(addresses: set<string>, blocks: seq<Block>, limit: int, b: nat): (r: Option<nat>)
    requires b < |blocks|
    ensures r.Some? ==> b <= r.value < |blocks|
  {
    var end := PageEnd(addresses, blocks, b, limit, b);
    if end.Some? && |MatchesIn(addresses, blocks, end.value + 1, |blocks|)| > 0 then end else None
  }

  ghost function Trail(addresses: set<string>, blocks: seq<Block>, limit: int, start: nat, rounds: nat): (r: Option<nat>)
    requires start < |blocks|
    ensures r.Some? ==> start <= r.value < |blocks|
  {
    if rounds == 0 then Some(start)
    else
      var before := Trail(addresses, blocks, limit, start, rounds - 1);
      if before.None? then None else Stop(addresses, blocks, limit, before.value)
  }

  /** A truncated answer moves the session to the end of its page. */
  lemma TruncatedRound(addresses: set<string>, blocks: seq<Block>, limit: int, client: Client, start: nat, s: Session, k: nat)
    requires ResumesAtEnds(addresses, blocks, limit, client) && InStep(addresses, blocks, start, s) && !s.done
    requires Stop(addresses, blocks, limit, s.start) == Some(k)
    ensures Round(addresses, blocks, limit, client, s) == Session(k, false, MatchesIn(addresses, blocks, start, k + 1), false)
  {
    JoinPage(addresses, blocks, start, s, k + 1);
  }

  lemma FinalPage(addresses: set<string>, blocks: seq<Block>, start: nat, limit: int)
    requires start < |blocks| && Stop(addresses, blocks, limit, start).None?
    ensures Query(addresses, blocks, start, limit) == Page(MatchesIn(addresses, blocks, start, |blocks|), false)
  {
    var end := PageEnd(addresses, blocks, start, limit, start);
    if end.Some? {
      SplitRange(addresses, blocks, start, end.value + 1, |blocks|);
    }
  }

  /** An answer that is not truncated reaches all the remaining matches. */
  lemma FinalRound(addresses: set<string>, blocks: seq<Block>, limit: int, client: Client, start: nat, s: Session)
    requires InStep(addresses, blocks, start, s) && !s.done && Stop(addresses, blocks, limit, s.start).None?
    ensures Round(addresses, blocks, limit, client, s) == Session(s.start, false, MatchesIn(addresses, blocks, start, |blocks|), true)
  {
    JoinPage(addresses, blocks, start, s, |blocks|);
    FinalPage(addresses, blocks, s.start, limit);
  }

  /** A session that is at a block of the trail, or done when the trail has ended. */
  ghost predicate Follows(addresses: set<string>, blocks: seq<Block>, start: nat, trail: Option<nat>, s: Session) {
    && InStep(addresses, blocks, start, s)
    && s.done == trail.None?
    && (trail.Some? ==> s.start == trail.value)
  }

  lemma RoundFollows(addresses: set<string>, blocks: seq<Block>, limit: int, client: Client, start: nat, trail: Option<nat>, s: Session)
    requires ResumesAtEnds(addresses, blocks, limit, client) && Follows(addresses, blocks, start, trail, s)
    ensures Follows(addresses, blocks, start, if trail.None? then None else Stop(addresses, blocks, limit, trail.value),
                    Round(addresses, blocks, limit, client, s))
  {
    if !s.done {
      var k := Stop(addresses, blocks, limit, s.start);
      if k.Some? {
        TruncatedRound(addresses, blocks, limit, client, start, s, k.value);
      } else {
        FinalRound(addresses, blocks, limit, client, start, s);
      }
    }
  }

  /** After any number of rounds, the pages received, without the repeated boundary blocks, are exactly all
      matches from the first block asked for through the current one, or through the end once done. */
  lemma {:induction false} DownloadFollows(addresses: set<string>, blocks: seq<Block>, limit: int, client: Client, start: nat, rounds: nat)
    returns (trail: Option<nat>, s: Session)
    requires ResumesAtEnds(addresses, blocks, limit, client) && start < |blocks|
    ensures trail == Trail(addresses, blocks, limit, start, rounds)
    ensures s == Download(addresses, blocks, limit, client, start, rounds)
    ensures Follows(addresses, blocks, start, trail, s)
  {
    if rounds == 0 {
      trail, s := Some(start), Session(start, true, [], false);
    } else {
      var before, session := DownloadFollows(addresses, blocks, limit, client, start, rounds - 1);
      RoundFollows(addresses, blocks, limit, client, start, before, session);
      trail := if before.None? then None else Stop(addresses, blocks, limit, before.value);
      s := Round(addresses, blocks, limit, client, session);
    }
  }

  // ---------------------------------------------------------------------------------------------
  // When a download ends
  // ---------------------------------------------------------------------------------------------

  /** A block that alone fills a page, with a match somewhere after it. */
  ghost predicate Stalls(addresses: set<string>, blocks: seq<Block>, limit: int, h: nat) {
    && h < |blocks|
    && |MatchesOf(addresses, blocks[h])| >= limit
    && |MatchesIn(addresses, blocks, h + 1, |blocks|)| > 0
  }

  lemma StopAdvances(addresses: set<string>, blocks: seq<Block>, limit: int, b: nat)
    requires b < |blocks| && !Stalls(addresses, blocks, limit, b)
    ensures var k := Stop(addresses, blocks, limit, b); k.None? || k.value > b
  {
    var end := PageEnd(addresses, blocks, b, limit, b);
    if end == Some(b) {
      assert |MatchesIn(addresses, blocks, b, b)| == 0;
      assert CountThrough(addresses, blocks, b, b) >= limit;
    }
  }

  /** Without such a block, every truncated answer moves the download forward. */
  lemma {:induction false} TrailAdvances(addresses: set<string>, blocks: seq<Block>, limit: int, start: nat, rounds: nat)
    requires start < |blocks| && NeverStalls(addresses, blocks, limit, start)
    ensures var t := Trail(addresses, blocks, limit, start, rounds); t.None? || t.value >= start + rounds
  {
    if rounds > 0 {
      TrailAdvances(addresses, blocks, limit, start, rounds - 1);
      var t := Trail(addresses, blocks, limit, start, rounds - 1);
      if t.Some? {
        StopAdvances(addresses, blocks, limit, t.value);
      }
    }
  }

  lemma EarlierRangeHasMatches(addresses: set<string>, blocks: seq<Block>, a: nat, b: nat, c: nat)
    requires a <= b <= c <= |blocks| && |MatchesIn(addresses, blocks, b, c)| > 0
    ensures |MatchesIn(addresses, blocks, a, c)| > 0
  {
    SplitRange(addresses, blocks, a, b, c);
  }

  lemma PageEndsByStall(addresses: set<string>, blocks: seq<Block>, limit: int, b: nat, h: nat)
    requires b <= h && Stalls(addresses, blocks, limit, h)
    ensures var end := PageEnd(addresses, blocks, b, limit, b); end.Some? && end.value <= h
  {
    assert CountThrough(addresses, blocks, b, h) >= limit;
  }

  lemma StopStalls(addresses: set<string>, blocks: seq<Block>, limit: int, b: nat, h: nat)
    requires b <= h && Stalls(addresses, blocks, limit, h)
    ensures var k := Stop(addresses, blocks, limit, b); k.Some? && k.value <= h
  {
    var end := PageEnd(addresses, blocks, b, limit, b);
    PageEndsByStall(addresses, blocks, limit, b, h);
    EarlierRangeHasMatches(addresses, blocks, end.value + 1, h + 1, |blocks|);
  }

  /** A block that stalls is never passed. */
  lemma {:induction false} TrailStalls(addresses: set<string>, blocks: seq<Block>, limit: int, start: nat, h: nat, rounds: nat)
    requires start <= h && Stalls(addresses, blocks, limit, h)
    ensures var t := Trail(addresses, blocks, limit, start, rounds); t.Some? && t.value <= h
  {
    if rounds > 0 {
      TrailStalls(addresses, blocks, limit, start, h, rounds - 1);
      StopStalls(addresses, blocks, limit, Trail(addresses, blocks, limit, start, rounds - 1).value, h);
    }
  }

  ghost predicate NeverStalls(addresses: set<string>, blocks: seq<Block>, limit: int, start: nat) {
    forall h :: start <= h < |blocks| ==> !Stalls(addresses, blocks, limit, h)
  }

  ghost predicate Completes(addresses: set<string>, blocks: seq<Block>, limit: int, client: Client, start: nat) {
    exists rounds: nat :: Download(addresses, blocks, limit, client, start, rounds).done
  }

  /** A completed download has received exactly all matches from its start on, in order, without repetition. */
  lemma CompletedDownload(addresses: set<string>, blocks: seq<Block>, limit: int, client: Client, start: nat, rounds: nat)
    requires limit >= 1 && Identified(blocks) && AsksFromLast(blocks, client) && start < |blocks|
    requires Download(addresses, blocks, limit, client, start, rounds).done
    ensures Download(addresses, blocks, limit, client, start, rounds).received == MatchesIn(addresses, blocks, start, |blocks|)
  {
    LastResumesAtEnds(addresses, blocks, limit, client);
    var _, _ := DownloadFollows(addresses, blocks, limit, client, start, rounds);
  }

  lemma DoneWhenTrailEnds(addresses: set<string>, blocks: seq<Block>, limit: int, client: Client, start: nat, rounds: nat)
    requires limit >= 1 && Identified(blocks) && AsksFromLast(blocks, client) && start < |blocks|
    ensures Download(addresses, blocks, limit, client, start, rounds).done
            == Trail(addresses, blocks, limit, start, rounds).None?
  {
    LastResumesAtEnds(addresses, blocks, limit, client);
    var _, _ := DownloadFollows(addresses, blocks, limit, client, start, rounds);
  }

  lemma DownloadCompletes(addresses: set<string>, blocks: seq<Block>, limit: int, client: Client, start: nat)
    requires limit >= 1 && Identified(blocks) && AsksFromLast(blocks, client) && start < |blocks|
    requires NeverStalls(addresses, blocks, limit, start)
    ensures Download(addresses, blocks, limit, client, start, |blocks| - start).done
  {
    TrailAdvances(addresses, blocks, limit, start, |blocks| - start);
    DoneWhenTrailEnds(addresses, blocks, limit, client, start, |blocks| - start);
  }

  lemma DownloadStalls(addresses: set<string>, blocks: seq<Block>, limit: int, client: Client, start: nat, h: nat, rounds: nat)
    requires limit >= 1 && Identified(blocks) && AsksFromLast(blocks, client) && start <= h && Stalls(addresses, blocks, limit, h)
    ensures !Download(addresses, blocks, limit, client, start, rounds).done
  {
    TrailStalls(addresses, blocks, limit, start, h, rounds);
    DoneWhenTrailEnds(addresses, blocks, limit, client, start, rounds);
  }

  /** A download completes exactly when no block from its start on both fills a page alone and has a match
      after it. It then takes at most one round per block. */
  lemma DownloadCompletesExactlyWhen(addresses: set<string>, blocks: seq<Block>, limit: int, client: Client, start: nat)
    requires limit >= 1 && Identified(blocks) && AsksFromLast(blocks, client) && start < |blocks|
    ensures Completes(addresses, blocks, limit, client, start) <==> NeverStalls(addresses, blocks, limit, start)
    ensures Completes(addresses, blocks, limit, client, start) ==>
              Download(addresses, blocks, limit, client, start, |blocks| - start).done
  {
    if NeverStalls(addresses, blocks, limit, start) {
      DownloadCompletes(addresses, blocks, limit, client, start);
    } else {
      var h: nat :| start <= h < |blocks| && Stalls(addresses, blocks, limit, h);
      forall rounds: nat ensures !Download(addresses, blocks, limit, client, start, rounds).done {
        DownloadStalls(addresses, blocks, limit, client, start, h, rounds);
      }
    }
  }

  /** Pages of at least two transactions never stall on a generated chain, whose blocks have at most one. */
  lemma LinkedNeverStalls(addresses: set<string>, blocks: seq<Block>, limit: int, start: nat)
    requires Linked(blocks) && limit >= 2
    ensures NeverStalls(addresses, blocks, limit, start)
  {
    forall h | start <= h < |blocks| ensures !Stalls(addresses, blocks, limit, h) {
      MatchesAreMembers(addresses, blocks[h].transactions, |blocks[h].transactions|);
      assert blocks[h] in blocks;
    }
  }

  /** The download ends after at most one round per block, and has then received exactly all matches from its
      start on, in order and without repetition. */
  ghost predicate DownloadsAll(addresses: set<string>, blocks: seq<Block>, limit: int, client: Client, start: nat)
    requires start < |blocks|
  {
    var s := Download(addresses, blocks, limit, client, start, |blocks| - start);
    s == s.(done := true, received := MatchesIn(addresses, blocks, start, |blocks|))
  }

  /** So it is for all addresses, clients, first blocks, and page sizes from two on. */
  ghost predicate AlwaysDownloads(blocks: seq<Block>) {
    forall addresses: set<string>, limit: int, client: Client, start: nat ::
      limit >= 2 && AsksFromLast(blocks, client) && start < |blocks| ==> DownloadsAll(addresses, blocks, limit, client, start)
  }

  lemma DownloadGetsAll(addresses: set<string>, blocks: seq<Block>, limit: int, client: Client, start: nat)
    requires limit >= 1 && Identified(blocks) && AsksFromLast(blocks, client) && start < |blocks|
    requires NeverStalls(addresses, blocks, limit, start)
    ensures DownloadsAll(addresses, blocks, limit, client, start)
  {
    DownloadCompletes(addresses, blocks, limit, client, start);
    CompletedDownload(addresses, blocks, limit, client, start, |blocks| - start);
  }

  lemma LinkedChainsDownload(blocks: seq<Block>)
    requires Linked(blocks)
    ensures AlwaysDownloads(blocks)
  {
    forall addresses: set<string>, limit: int, client: Client, start: nat
      | limit >= 2 && AsksFromLast(blocks, client) && start < |blocks|
      ensures DownloadsAll(addresses, blocks, limit, client, start)
    {
      LinkedNeverStalls(addresses, blocks, limit, start);
      DownloadGetsAll(addresses, blocks, limit, client, start);
    }
  }

  /** Every generated chain can be downloaded completely by paging. */
  lemma GeneratedChainsDownload(w: World, fee: int, commands: seq<Command>)
    requires w.Valid() && Run(w, fee, commands).Some?
    ensures AlwaysDownloads(Run(w, fee, commands).value.blocks)
  {
    GeneratedChainIsLinked(w, fee, commands);
    LinkedChainsDownload(Run(w, fee, commands).value.blocks);
  }

  // ---------------------------------------------------------------------------------------------
  // Pages of one transaction
  // ---------------------------------------------------------------------------------------------

  /** The block of the first match. */
  lemma {:induction false} FirstMatch(addresses: set<string>, blocks: seq<Block>, start: nat) returns (h: nat)
    requires start <= |blocks| && |MatchesIn(addresses, blocks, start, |blocks|)| > 0
    ensures start <= h < |blocks| && |MatchesOf(addresses, blocks[h])| > 0
    ensures |MatchesIn(addresses, blocks, start, |blocks|)|
            == |MatchesOf(addresses, blocks[h])| + |MatchesIn(addresses, blocks, h + 1, |blocks|)|
    decreases |blocks| - start
  {
    CountFrom(addresses, blocks, start);
    if |MatchesOf(addresses, blocks[start])| > 0 {
      h := start;
    } else {
      h := FirstMatch(addresses, blocks, start + 1);
    }
  }

  lemma CountFrom(addresses: set<string>, blocks: seq<Block>, b: nat)
    requires b < |blocks|
    ensures |MatchesIn(addresses, blocks, b, |blocks|)|
            == |MatchesOf(addresses, blocks[b])| + |MatchesIn(addresses, blocks, b + 1, |blocks|)|
  {
    SplitRange(addresses, blocks, b, b + 1, |blocks|);
    assert |MatchesIn(addresses, blocks, b, b)| == 0;
  }

  lemma EarlierRangeHasMore(addresses: set<string>, blocks: seq<Block>, a: nat, b: nat)
    requires a <= b <= |blocks|
    ensures |MatchesIn(addresses, blocks, a, |blocks|)| >= |MatchesIn(addresses, blocks, b, |blocks|)|
  {
    SplitRange(addresses, blocks, a, b, |blocks|);
  }

  /** One transaction to a page: where blocks have at most one, no block stalls exactly if there is at most one
      match in all. */
  lemma SinglesStallExactlyWhen(addresses: set<string>, blocks: seq<Block>, start: nat)
    requires Linked(blocks) && start < |blocks|
    ensures NeverStalls(addresses, blocks, 1, start) <==> |MatchesIn(addresses, blocks, start, |blocks|)| <= 1
  {
    if |MatchesIn(addresses, blocks, start, |blocks|)| > 1 {
      var h := FirstMatch(addresses, blocks, start);
      MatchesAreMembers(addresses, blocks[h].transactions, |blocks[h].transactions|);
      assert blocks[h] in blocks;
      assert Stalls(addresses, blocks, 1, h);
    } else {
      forall h | start <= h < |blocks| ensures !Stalls(addresses, blocks, 1, h) {
        CountFrom(addresses, blocks, h);
        EarlierRangeHasMore(addresses, blocks, start, h);
      }
    }
  }

  /** So a download one by one completes on a generated chain exactly if it has at most one match to get. */
  lemma SinglesDownloadExactlyWhen(w: World, fee: int, commands: seq<Command>, s: State, addresses: set<string>, client: Client, start: nat)
    requires w.Valid() && Run(w, fee, commands) == Some(s)
    requires AsksFromLast(s.blocks, client) && start < |s.blocks|
    ensures Completes(addresses, s.blocks, 1, client, start) <==> |MatchesIn(addresses, s.blocks, start, |s.blocks|)| <= 1
  {
    GeneratedChainIsLinked(w, fee, commands);
    SinglesStallExactlyWhen(addresses, s.blocks, start);
    DownloadCompletesExactlyWhen(addresses, s.blocks, 1, client, start);
  }

  /** The shortest such history: two receptions. The chain after them. */
  lemma TwoReceptions(w: World, fee: int, a: int, b: int)
    ensures var r := Run(w, fee, [Get(a), Get(b)]);
      && r.Some? && |r.value.blocks| == 3 && r.value.blocks[0] == GENESIS
      && |r.value.blocks[1].transactions| == 1 == |r.value.blocks[2].transactions|
      && r.value.blocks[1].transactions[0].outputs == Numbered([(w.external(0), a)], w.sha(1))
      && r.value.blocks[2].transactions[0].outputs == Numbered([(w.external(1), b)], w.sha(4))
  {
    var first := Receive(w, fee, INITIAL, a);
    var commands := [Get(a), Get(b)];
    assert commands[..1] == [Get(a)] && [Get(a)][..0] == [];
    assert Run(w, fee, [Get(a)]) == Some(first);
    assert first.curExternal == 1 && first.draws == 3 && |first.blocks| == 2;
    assert Run(w, fee, commands) == Some(Receive(w, fee, first, b));
  }

  lemma OneMatch(addresses: set<string>, b: Block, o: Output)
    requires |b.transactions| == 1 && o in b.transactions[0].outputs && o.address in addresses
    ensures |MatchesOf(addresses, b)| == 1
  {
    assert Matches(addresses, b.transactions[0]);
    assert |MatchesAmong(addresses, b.transactions, 0)| == 0;
  }

  /** No client that asks from the last transaction ever finishes downloading them one by one. */
  lemma TwoReceptionsStall(w: World, fee: int, a: int, b: int, s: State, client: Client)
    requires w.Valid() && Run(w, fee, [Get(a), Get(b)]) == Some(s) && AsksFromLast(s.blocks, client)
    ensures |s.blocks| > 0 && !Completes({w.external(0), w.external(1)}, s.blocks, 1, client, 0)
  {
    TwoReceptions(w, fee, a, b);
    var addresses := {w.external(0), w.external(1)};
    OneMatch(addresses, s.blocks[1], s.blocks[1].transactions[0].outputs[0]);
    OneMatch(addresses, s.blocks[2], s.blocks[2].transactions[0].outputs[0]);
    CountFrom(addresses, s.blocks, 1);
    CountFrom(addresses, s.blocks, 2);
    EarlierRangeHasMore(addresses, s.blocks, 0, 1);
    SinglesDownloadExactlyWhen(w, fee, [Get(a), Get(b)], s, addresses, client, 0);
  }
}
