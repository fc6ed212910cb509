/**
 Chain state and blocks: building a block (`State.MakeBlock`), validating one
 (`validateBlock`) and the state after it (`updateState`).

 Hashes are ideal: the hash of a validator list stands for the list itself, and a
 block carries its own hash. A piece of evidence is the verdict on it.
 */
module Chain {
  import opened Types
  import C = Commits

  datatype State = State(
    chainId: nat, lastBlockHeight: int, lastBlockTotalTx: int, lastBlockHash: Hash,
    validators: Validators, lastValidators: Validators,
    params: Hash, lastResults: Hash, app: Hash)

  datatype Header = Header(
    chainId: nat, height: int, round: int, numTxs: int, totalTxs: int, lastBlockHash: Hash,
    validators: Validators, app: Hash, params: Hash, lastResults: Hash)

  datatype Block = Block(header: Header, lastCommit: C.Commit, evidence: seq<bool>, hash: Hash)

  /** `HashesTo`: no block hashes to nil, and nil hashes to nothing. */
  predicate HashesTo(b: Option<Block>, h: Hash) {
    h != NIL && b.Some? && b.value.hash == h
  }

  /** `validateBlock`. */
  function Validate(s: State, signed: Signatures, b: Block): C.Verdict {
    var h := b.header;
    if || h.chainId != s.chainId
       || h.height != s.lastBlockHeight + 1
       || h.lastBlockHash != s.lastBlockHash
       || h.totalTxs != s.lastBlockTotalTx + h.numTxs
       || h.app != s.app
       || h.params != s.params
       || h.lastResults != s.lastResults
       || h.validators != s.validators
    then C.Reject
    else
      var commit :=
        if h.height == 1 then (if |b.lastCommit.precommits| != 0 then C.Reject else C.Accept)
        else if |b.lastCommit.precommits| != |s.lastValidators| then C.Reject
        else C.VerifyCommit(s.lastValidators, signed, s.lastBlockHash, h.height - 1, b.lastCommit);
      if commit.Accept? && false in b.evidence then C.Reject else commit
  }

  /** `updateState`; the rotation of the next validators is left to `Rotation`. */
  function Update(s: State, b: Block): State {
    State(s.chainId, b.header.height, s.lastBlockTotalTx + b.header.numTxs, b.hash,
          s.validators, s.validators, s.params, NIL, NIL)
  }

  /** `State.MakeBlock` with `createProposalBlock`'s commit and no evidence. */
  function MakeBlock(s: State, height: int, round: int, numTxs: int, commit: C.Commit, hash: Hash): Block {
    Block(Header(s.chainId, height, round, numTxs, s.lastBlockTotalTx + numTxs, s.lastBlockHash,
                 s.validators, s.app, s.params, s.lastResults),
          commit, [], hash)
  }

  /** A valid block stays valid as more votes are signed. */
  lemma MoreSignatures(s: State, signed: Signatures, more: Signatures, b: Block)
    requires Validate(s, signed, b).Accept? && signed <= more
    ensures Validate(s, more, b).Accept?
  {
    hide C.VerifyCommit;
    if b.header.height != 1 {
      C.MoreSignatures(s.lastValidators, signed, more, s.lastBlockHash, b.header.height - 1, b.lastCommit);
    }
  }

  /** The commit a proposer at the height after `s` needs: none at height 1, a verifying one above. */
  ghost predicate FitsCommit(s: State, signed: Signatures, commit: C.Commit) {
    if s.lastBlockHeight == 0 then |commit.precommits| == 0
    else C.VerifyCommit(s.lastValidators, signed, s.lastBlockHash, s.lastBlockHeight, commit).Accept?
  }

  /** A block made from a state is valid in that state exactly when its commit fits. */
  lemma MadeBlockIsValid(s: State, signed: Signatures, round: int, numTxs: int, commit: C.Commit, hash: Hash)
    ensures Validate(s, signed, MakeBlock(s, s.lastBlockHeight + 1, round, numTxs, commit, hash)).Accept?
            <==> FitsCommit(s, signed, commit)
  {
    C.VerifyCommitMeaning(s.lastValidators, signed, s.lastBlockHash, s.lastBlockHeight, commit);
  }

  /**
   A block is valid exactly when its header is the one `MakeBlock` would give it, its
   commit fits and its evidence is good.
   */
  lemma ValidIsMade(s: State, signed: Signatures, b: Block)
    ensures Validate(s, signed, b).Accept? <==>
      && b.header == MakeBlock(s, s.lastBlockHeight + 1, b.header.round, b.header.numTxs, b.lastCommit, b.hash).header
      && b.header.chainId == s.chainId && b.header.height == s.lastBlockHeight + 1
      && b.header.lastBlockHash == s.lastBlockHash && b.header.totalTxs == s.lastBlockTotalTx + b.header.numTxs
      && b.header.validators == s.validators && b.header.app == s.app
      && b.header.params == s.params && b.header.lastResults == s.lastResults
      && FitsCommit(s, signed, b.lastCommit)
      && false !in b.evidence
  {
    C.VerifyCommitMeaning(s.lastValidators, signed, s.lastBlockHash, s.lastBlockHeight, b.lastCommit);
  }

  /**
   Blocks that are valid one after the other form a chain: heights and transaction totals
   add up, the second names the hash of the first and carries a +2/3 commit of it by the
   validators the first names.
   */
  lemma ConsecutiveBlocks(s: State, vals: Validators, signed: Signatures, b: Block, b': Block)
    requires s.lastBlockHeight >= 0
    requires Validate(s, signed, b).Accept? && Validate(Update(s, b).(validators := vals), signed, b').Accept?
    ensures b'.header.height == b.header.height + 1 && b'.header.chainId == b.header.chainId
    ensures b'.header.totalTxs == b.header.totalTxs + b'.header.numTxs
    ensures b'.header.lastBlockHash == b.hash && b'.header.validators == vals
    ensures C.VerifyCommit(b.header.validators, signed, b.hash, b.header.height, b'.lastCommit).Accept?
  {
    hide C.VerifyCommit;
    ValidIsMade(s, signed, b);
    ValidIsMade(Update(s, b).(validators := vals), signed, b');
  }
}
