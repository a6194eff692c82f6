/** The hash-linked audit trail of blockchain_helper.py: the genesis block,
    the latest block, appending an event, verifying the whole chain and
    exporting a range of it.

    The table is the sequence of its rows in block-index order, which is the
    order every query here asks for; row ids are handed out from a counter.
    Hashing goes through Models.CalculateHash with the digest as a
    parameter, and timestamps are their ISO texts. */
module AuditChain {
  import opened Common
  import opened Models

  const GenesisDescription: string := "Blockchain initialized - eDOMOS v2.1"

  /** Sixty-four '0' characters: the genesis block's previous hash. */
  const ZeroHash: string := "0000000000000000000000000000000000000000000000000000000000000000"

  /** A block whose stored hash is its recomputed hash. */
  predicate Sealed(b: Block, digest: BlockDigest) { b.blockHash == CalculateHash(b, digest) }

  /** Block indices strictly increase along the table. */
  predicate Ordered(blocks: seq<Block>) {
    forall i, j :: 0 <= i < j < |blocks| ==> blocks[i].blockIndex < blocks[j].blockIndex
  }

  /** create_genesis_block at moment `at`, as row `id`. */
  function Genesis(at: string, id: nat, digest: BlockDigest): (g: Block)
    ensures g.blockIndex == 0 && g.eventType == "genesis" && g.previousHash == ZeroHash && g.nonce == 0
    ensures g.description == GenesisDescription && g.userId.None? && g.ipAddress.None?
    ensures Sealed(g, digest)
  {
    var g := Block(id, 0, "genesis", GenesisDescription, Some(at), "", ZeroHash, 0, None, None, None);
    g.(blockHash := CalculateHash(g, digest))
  }

  /** get_latest_block: a block of greatest index, none for an empty table. */
  function Latest(blocks: seq<Block>): (r: Option<Block>)
    ensures r.None? <==> blocks == []
    ensures r.Some? ==> r.value in blocks && forall b :: b in blocks ==> b.blockIndex <= r.value.blockIndex
  {
    if blocks == [] then None
    else
      var rest := Latest(blocks[1..]);
      assert forall b :: b in blocks ==> b == blocks[0] || b in blocks[1..];
      if rest.None? || blocks[0].blockIndex >= rest.value.blockIndex then Some(blocks[0]) else rest
  }

  /** In an ordered table the latest block is the last row. */
  lemma LatestIsLast(blocks: seq<Block>)
    requires Ordered(blocks) && blocks != []
    ensures Latest(blocks) == Some(blocks[|blocks| - 1])
  {
    var l := Latest(blocks).value;
    var last := blocks[|blocks| - 1];
    assert last in blocks;
    var k :| 0 <= k < |blocks| && blocks[k] == l;
    if k < |blocks| - 1 {
      assert false;
    }
  }

  /** The block that follows `prev`: next index, linked to its hash, nonce
      0, sealed. */
  function NextBlock(prev: Block, id: nat, eventType: string, description: string, at: string,
                     userId: Option<nat>, ipAddress: Option<string>, digest: BlockDigest): (b: Block)
    ensures b.blockIndex == prev.blockIndex + 1 && b.previousHash == prev.blockHash && b.nonce == 0
    ensures b.eventType == eventType && b.description == description && b.userId == userId
    ensures b.timestamp == Some(at) && b.ipAddress == ipAddress && b.id == id
    ensures Sealed(b, digest)
  {
    var b := Block(id, prev.blockIndex + 1, eventType, description, Some(at), "", prev.blockHash, 0,
                   userId, ipAddress, None);
    b.(blockHash := CalculateHash(b, digest))
  }

  datatype Appended = Appended(blocks: seq<Block>, block: Block, nextId: nat)

  /** add_blockchain_event. An empty table first gets its genesis block
      (stamped `genesisAt`). A missing user id falls back to the signed-in
      user's and a missing address to the request's, when there is one. */
  function AddEvent(blocks: seq<Block>, nextId: nat, eventType: string, description: string,
                    userId: Option<nat>, ipAddress: Option<string>,
                    signedInUser: Option<nat>, requestAddress: Option<string>,
                    genesisAt: string, at: string, digest: BlockDigest): (r: Appended)
    ensures blocks == [] ==> r.blocks == [Genesis(genesisAt, nextId, digest), r.block]
    ensures blocks != [] ==> r.blocks == blocks + [r.block]
    ensures r.block.blockIndex == (if blocks == [] then 1 else Latest(blocks).value.blockIndex + 1)
    ensures r.block.previousHash == (if blocks == [] then Genesis(genesisAt, nextId, digest).blockHash
                                     else Latest(blocks).value.blockHash)
    ensures r.block.eventType == eventType && r.block.description == description
    ensures r.block.timestamp == Some(at)
    ensures r.block.userId == (if userId.Some? then userId else signedInUser)
    ensures r.block.ipAddress == (if ipAddress.Some? then ipAddress else requestAddress)
    ensures r.block.nonce == 0
    ensures Sealed(r.block, digest)
  {
    var user := if userId.Some? then userId else signedInUser;
    var address := if ipAddress.Some? then ipAddress else requestAddress;
    if blocks == [] then
      var g := Genesis(genesisAt, nextId, digest);
      var b := NextBlock(g, nextId + 1, eventType, description, at, user, address, digest);
      Appended([g, b], b, nextId + 2)
    else
      var b := NextBlock(Latest(blocks).value, nextId, eventType, description, at, user, address, digest);
      Appended(blocks + [b], b, nextId + 1)
  }

  // =====================================================================
  // Verification

  datatype Corruption =
    | HashMismatch(blockIndex: int, storedHash: string, calculatedHash: string)
    | LinkBroken(blockIndex: int, expected: string, actual: string)

  /** What the check of row i reports: a hash mismatch, then, after the
      first row, a broken link to the row before. */
  function ReportsAt(blocks: seq<Block>, i: nat, digest: BlockDigest): seq<Corruption>
    requires i < |blocks|
  {
    var b := blocks[i];
    (if !Sealed(b, digest) then [HashMismatch(b.blockIndex, b.blockHash, CalculateHash(b, digest))] else [])
    + (if i > 0 && b.previousHash != blocks[i - 1].blockHash
       then [LinkBroken(b.blockIndex, blocks[i - 1].blockHash, b.previousHash)] else [])
  }

  /** The reports for the first n rows, in order. */
  function CorruptionsUpTo(blocks: seq<Block>, n: nat, digest: BlockDigest): seq<Corruption>
    requires n <= |blocks|
  {
    if n == 0 then [] else CorruptionsUpTo(blocks, n - 1, digest) + ReportsAt(blocks, n - 1, digest)
  }

  /** Every row sealed and linked to the row before it. */
  predicate Intact(blocks: seq<Block>, digest: BlockDigest) {
    (forall i :: 0 <= i < |blocks| ==> Sealed(blocks[i], digest))
    && (forall i :: 0 < i < |blocks| ==> blocks[i].previousHash == blocks[i - 1].blockHash)
  }

  datatype Verdict = Verdict(valid: bool, message: string, corrupted: seq<Corruption>)

  /** verify_blockchain on the table in index order. */
  function VerifySpec(blocks: seq<Block>, digest: BlockDigest): (r: Verdict)
    ensures r.valid <==> blocks != [] && r.corrupted == []
    ensures blocks == [] ==> r.message == "No blockchain found"
  {
    if blocks == [] then Verdict(false, "No blockchain found", [])
    else
      var c := CorruptionsUpTo(blocks, |blocks|, digest);
      if c != [] then Verdict(false, "Blockchain corrupted! " + NatToString(|c|) + " block(s) compromised", c)
      else Verdict(true, "Blockchain verified: " + NatToString(|blocks|) + " blocks intact", [])
  }

  /** Nothing is reported for the first n rows exactly when they are intact. */
  lemma {:induction false} NoReportsIffIntact(blocks: seq<Block>, n: nat, digest: BlockDigest)
    requires n <= |blocks|
    ensures CorruptionsUpTo(blocks, n, digest) == [] <==> Intact(blocks[..n], digest)
  {
    if n > 0 {
      NoReportsIffIntact(blocks, n - 1, digest);
      assert blocks[..n][..n - 1] == blocks[..n - 1];
      var p := blocks[..n];
      if Intact(p, digest) {
        assert Sealed(p[n - 1], digest);
        if n > 1 { assert p[n - 1].previousHash == p[n - 2].blockHash; }
      }
      if CorruptionsUpTo(blocks, n, digest) == [] {
        assert Intact(blocks[..n - 1], digest);
        forall i | 0 <= i < n ensures Sealed(p[i], digest) {
          if i < n - 1 { assert p[i] == blocks[..n - 1][i]; }
        }
        forall i | 0 < i < n ensures p[i].previousHash == p[i - 1].blockHash {
          if i < n - 1 { assert p[i] == blocks[..n - 1][i] && p[i - 1] == blocks[..n - 1][i - 1]; }
        }
      }
    }
  }

  /** A non-empty table verifies exactly when it is intact. */
  lemma ValidIffIntact(blocks: seq<Block>, digest: BlockDigest)
    ensures VerifySpec(blocks, digest).valid <==> blocks != [] && Intact(blocks, digest)
    ensures VerifySpec(blocks, digest).valid <==> VerifySpec(blocks, digest).corrupted == [] && blocks != []
  {
    NoReportsIffIntact(blocks, |blocks|, digest);
    assert blocks[..|blocks|] == blocks;
  }

  /** Reports only grow as more rows are checked: the reports for the
      first m rows begin the reports for the first n. */
  lemma {:induction false} ReportsPrefix(blocks: seq<Block>, m: nat, n: nat, digest: BlockDigest)
    requires m <= n <= |blocks|
    ensures |CorruptionsUpTo(blocks, m, digest)| <= |CorruptionsUpTo(blocks, n, digest)|
    ensures CorruptionsUpTo(blocks, n, digest)[..|CorruptionsUpTo(blocks, m, digest)|] == CorruptionsUpTo(blocks, m, digest)
    decreases n - m
  {
    if m < n {
      ReportsPrefix(blocks, m, n - 1, digest);
      var prev := CorruptionsUpTo(blocks, n - 1, digest);
      var k := |CorruptionsUpTo(blocks, m, digest)|;
      assert CorruptionsUpTo(blocks, n, digest) == prev + ReportsAt(blocks, n - 1, digest);
      assert (prev + ReportsAt(blocks, n - 1, digest))[..k] == prev[..k];
    }
  }

  /** A report made while checking the first m rows is in the final list. */
  lemma ReportKept(blocks: seq<Block>, m: nat, r: Corruption, digest: BlockDigest)
    requires m <= |blocks| && r in CorruptionsUpTo(blocks, m, digest)
    ensures r in CorruptionsUpTo(blocks, |blocks|, digest)
  {
    ReportsPrefix(blocks, m, |blocks|, digest);
    var all := CorruptionsUpTo(blocks, |blocks|, digest);
    var k := |CorruptionsUpTo(blocks, m, digest)|;
    assert r in all[..k];
  }

  /** Every row whose stored hash is wrong is reported. */
  lemma ReportsEveryBadHash(blocks: seq<Block>, i: nat, digest: BlockDigest)
    requires i < |blocks| && !Sealed(blocks[i], digest)
    ensures HashMismatch(blocks[i].blockIndex, blocks[i].blockHash, CalculateHash(blocks[i], digest))
            in CorruptionsUpTo(blocks, |blocks|, digest)
  {
    var r := HashMismatch(blocks[i].blockIndex, blocks[i].blockHash, CalculateHash(blocks[i], digest));
    var rs := ReportsAt(blocks, i, digest);
    assert rs[0] == r;
    assert CorruptionsUpTo(blocks, i + 1, digest) == CorruptionsUpTo(blocks, i, digest) + rs;
    assert r in CorruptionsUpTo(blocks, i + 1, digest);
    ReportKept(blocks, i + 1, r, digest);
  }

  /** Every row after the first whose link is wrong is reported. */
  lemma ReportsEveryBrokenLink(blocks: seq<Block>, i: nat, digest: BlockDigest)
    requires 0 < i < |blocks| && blocks[i].previousHash != blocks[i - 1].blockHash
    ensures LinkBroken(blocks[i].blockIndex, blocks[i - 1].blockHash, blocks[i].previousHash)
            in CorruptionsUpTo(blocks, |blocks|, digest)
  {
    var r := LinkBroken(blocks[i].blockIndex, blocks[i - 1].blockHash, blocks[i].previousHash);
    var rs := ReportsAt(blocks, i, digest);
    assert rs[|rs| - 1] == r;
    assert CorruptionsUpTo(blocks, i + 1, digest) == CorruptionsUpTo(blocks, i, digest) + rs;
    assert r in CorruptionsUpTo(blocks, i + 1, digest);
    ReportKept(blocks, i + 1, r, digest);
  }

  /** A row with both faults is reported twice, so the count in the message
      counts reports, not distinct rows. */
  lemma BothFaultsReportedTwice(blocks: seq<Block>, i: nat, digest: BlockDigest)
    requires 0 < i < |blocks| && !Sealed(blocks[i], digest) && blocks[i].previousHash != blocks[i - 1].blockHash
    ensures |ReportsAt(blocks, i, digest)| == 2
  {
  }

  /** The verification loop: each row checked in turn, reports collected. */
  method VerifyBlocks(blocks: seq<Block>, digest: BlockDigest) returns (valid: bool, message: string, corrupted: seq<Corruption>)
    ensures Verdict(valid, message, corrupted) == VerifySpec(blocks, digest)
    ensures valid <==> blocks != [] && Intact(blocks, digest)
  {
    ValidIffIntact(blocks, digest);
    if |blocks| == 0 {
      return false, "No blockchain found", [];
    }
    corrupted := [];
    var i := 0;
    while i < |blocks|
      invariant 0 <= i <= |blocks|
      invariant corrupted == CorruptionsUpTo(blocks, i, digest)
    {
      var block := blocks[i];
      var calculated := CalculateHash(block, digest);
      if block.blockHash != calculated {
        corrupted := corrupted + [HashMismatch(block.blockIndex, block.blockHash, calculated)];
      }
      if i > 0 {
        var previous := blocks[i - 1];
        if block.previousHash != previous.blockHash {
          corrupted := corrupted + [LinkBroken(block.blockIndex, previous.blockHash, block.previousHash)];
        }
      }
      i := i + 1;
    }
    if corrupted != [] {
      return false, "Blockchain corrupted! " + NatToString(|corrupted|) + " block(s) compromised", corrupted;
    }
    return true, "Blockchain verified: " + NatToString(|blocks|) + " blocks intact", [];
  }

  // =====================================================================
  // Appending keeps the chain valid

  /** Appending an event to an intact, ordered table leaves it intact and
      ordered; to an empty one, it yields genesis and the event, intact. */
  lemma AddKeepsIntact(blocks: seq<Block>, nextId: nat, eventType: string, description: string,
                       userId: Option<nat>, ipAddress: Option<string>, signedInUser: Option<nat>,
                       requestAddress: Option<string>, genesisAt: string, at: string, digest: BlockDigest)
    requires Ordered(blocks) && Intact(blocks, digest)
    ensures var r := AddEvent(blocks, nextId, eventType, description, userId, ipAddress, signedInUser,
                              requestAddress, genesisAt, at, digest);
      Ordered(r.blocks) && Intact(r.blocks, digest) && VerifySpec(r.blocks, digest).valid
  {
    var r := AddEvent(blocks, nextId, eventType, description, userId, ipAddress, signedInUser,
                      requestAddress, genesisAt, at, digest);
    if blocks == [] {
      var g := Genesis(genesisAt, nextId, digest);
      assert r.blocks == [g] + [r.block];
      AppendOrdered([g], r.block);
      AppendIntact([g], r.block, digest);
    } else {
      LatestIsLast(blocks);
      AppendOrdered(blocks, r.block);
      AppendIntact(blocks, r.block, digest);
    }
    ValidIffIntact(r.blocks, digest);
  }

  /** A block indexed past the last row keeps a table ordered. */
  lemma AppendOrdered(blocks: seq<Block>, b: Block)
    requires Ordered(blocks) && blocks != []
    requires blocks[|blocks| - 1].blockIndex < b.blockIndex
    ensures Ordered(blocks + [b])
  {
    var n := |blocks|;
    var r := blocks + [b];
    forall i, j | 0 <= i < j < |r| ensures r[i].blockIndex < r[j].blockIndex {
      if j == n && i < n - 1 {
        assert blocks[i].blockIndex < blocks[n - 1].blockIndex;
      }
    }
  }

  /** A sealed block linked to the last row keeps a table intact. */
  lemma AppendIntact(blocks: seq<Block>, b: Block, digest: BlockDigest)
    requires Intact(blocks, digest) && blocks != []
    requires Sealed(b, digest) && b.previousHash == blocks[|blocks| - 1].blockHash
    ensures Intact(blocks + [b], digest)
  {
    var r := blocks + [b];
    assert forall i :: 0 <= i < |blocks| ==> r[i] == blocks[i];
  }

  // =====================================================================
  // Export

  predicate InRange(b: Block, start: Option<int>, end: Option<int>) {
    (start.None? || start.value <= b.blockIndex) && (end.None? || b.blockIndex <= end.value)
  }

  /** The rows export_blockchain_proof includes: those within whichever
      bounds are given, in index order. */
  function ExportRange(blocks: seq<Block>, start: Option<int>, end: Option<int>): (r: seq<Block>)
    ensures forall b :: b in r <==> b in blocks && InRange(b, start, end)
    ensures |r| <= |blocks|
    ensures Ordered(blocks) ==> Ordered(r)
  {
    if blocks == [] then []
    else
      var rest := ExportRange(blocks[1..], start, end);
      assert forall b :: b in blocks <==> b == blocks[0] || b in blocks[1..];
      if InRange(blocks[0], start, end) then
        assert Ordered(blocks) ==> forall b :: b in rest ==> blocks[0].blockIndex < b.blockIndex by {
          if Ordered(blocks) {
            forall b | b in rest ensures blocks[0].blockIndex < b.blockIndex {
              var k :| 1 <= k < |blocks| && blocks[k] == b;
            }
          }
        }
        [blocks[0]] + rest
      else rest
  }

  /** Without bounds the export is the whole table. */
  lemma ExportAll(blocks: seq<Block>)
    ensures ExportRange(blocks, None, None) == blocks
  {
    if blocks != [] {
      ExportAll(blocks[1..]);
    }
  }

  datatype Export = Export(totalBlocks: nat, verified: bool, message: string, blocks: seq<Block>, signature: string)

  /** export_blockchain_proof: the selected rows, the verdict on the whole
      table, and SHA-256 of the JSON list of the selected hashes (`sign`). */
  function ExportProof(blocks: seq<Block>, start: Option<int>, end: Option<int>, digest: BlockDigest,
                       sign: seq<string> -> string): (e: Export)
    ensures e.totalBlocks == |e.blocks| && e.blocks == ExportRange(blocks, start, end)
    ensures e.verified == VerifySpec(blocks, digest).valid
    ensures e.signature == sign(Hashes(e.blocks))
  {
    var selected := ExportRange(blocks, start, end);
    var v := VerifySpec(blocks, digest);
    Export(|selected|, v.valid, v.message, selected, sign(Hashes(selected)))
  }

  /** The stored hashes of the rows, in order. */
  function Hashes(blocks: seq<Block>): (h: seq<string>)
    ensures |h| == |blocks| && forall i :: 0 <= i < |blocks| ==> h[i] == blocks[i].blockHash
  {
    if blocks == [] then [] else [blocks[0].blockHash] + Hashes(blocks[1..])
  }

  // =====================================================================
  // The table

  class AuditLog {
    var blocks: seq<Block>
    var nextId: nat

    constructor ()
      ensures blocks == [] && nextId == 1
    {
      blocks := [];
      nextId := 1;
    }

    method LatestBlock() returns (b: Option<Block>)
      ensures b == Latest(blocks)
    {
      b := Latest(blocks);
    }

    /** create_genesis_block: adds the genesis row. */
    method CreateGenesis(at: string, digest: BlockDigest) returns (g: Block)
      modifies this
      ensures g == Genesis(at, old(nextId), digest)
      ensures blocks == old(blocks) + [g] && nextId == old(nextId) + 1
    {
      g := Genesis(at, nextId, digest);
      blocks := blocks + [g];
      nextId := nextId + 1;
    }

    /** add_blockchain_event. */
    method Add(eventType: string, description: string, userId: Option<nat>, ipAddress: Option<string>,
               signedInUser: Option<nat>, requestAddress: Option<string>, genesisAt: string, at: string,
               digest: BlockDigest)
      returns (b: Block)
      modifies this
      ensures var r := AddEvent(old(blocks), old(nextId), eventType, description, userId, ipAddress,
                                signedInUser, requestAddress, genesisAt, at, digest);
        blocks == r.blocks && b == r.block && nextId == r.nextId
    {
      ghost var r := AddEvent(blocks, nextId, eventType, description, userId, ipAddress,
                              signedInUser, requestAddress, genesisAt, at, digest);
      var previous := LatestBlock();
      if previous.None? {
        var g := CreateGenesis(genesisAt, digest);
        previous := Some(g);
        assert blocks == [g];
      }
      var user := if userId.Some? then userId else signedInUser;
      var address := if ipAddress.Some? then ipAddress else requestAddress;
      b := NextBlock(previous.value, nextId, eventType, description, at, user, address, digest);
      blocks := blocks + [b];
      nextId := nextId + 1;
    }

    method Verify(digest: BlockDigest) returns (valid: bool, message: string, corrupted: seq<Corruption>)
      ensures Verdict(valid, message, corrupted) == VerifySpec(blocks, digest)
    {
      valid, message, corrupted := VerifyBlocks(blocks, digest);
    }
  }
}
