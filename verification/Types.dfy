/**
 Values shared by the consensus modules.

 Addresses, block hashes, signatures and peer names are byte strings in the
 program; the consensus code only compares them and asks whether they are
 empty, so each is a natural number here, with 0 for the empty string.
 */
module Types {

  datatype Option<+T> = None | Some(value: T)

  type Address = nat
  type Hash = nat
  type Signature = nat
  type PeerId = nat

  /** The hash carried by a vote for no block. */
  const NIL: Hash := 0

  /** Vote types (`VoteTypePrevote`, `VoteTypePrecommit`). */
  const PREVOTE := 1
  const PRECOMMIT := 2

  predicate IsVoteTypeValid(kind: int) {
    kind == PREVOTE || kind == PRECOMMIT
  }

  /** A validator without its rotation accumulator. */
  datatype Validator = Validator(address: Address, power: nat)

  type Validators = seq<Validator>

  datatype Vote = Vote(
    index: int, address: Address, height: int, round: int, kind: int,
    timestamp: int, hash: Hash, signature: Signature)

  /**
   Ideal signatures: `(key, vote)` is a member exactly when the holder of the
   key with address `key` has signed `vote` as it stands, signature included.
   */
  type Signatures = set<(Address, Vote)>

  /** `Vote.Verify`: the key owns the address on the vote and signed the vote. */
  predicate Verifies(signed: Signatures, key: Address, vote: Vote) {
    vote.address == key && vote.signature != 0 && (key, vote) in signed
  }

  /** Addresses strictly increase, so an index stands for one address. */
  ghost predicate Sorted(vals: Validators) {
    forall i, j :: 0 <= i < j < |vals| ==> vals[i].address < vals[j].address
  }

  /** `ValidatorSet.GetByAddress`: the index of an address, -1 if it is absent. */
  function IndexOf(vals: Validators, a: Address): (k: int)
    ensures -1 <= k < |vals|
    ensures k >= 0 ==> vals[k].address == a
    ensures k == -1 ==> forall i :: 0 <= i < |vals| ==> vals[i].address != a
  {
    if |vals| == 0 then -1
    else if vals[|vals| - 1].address == a then |vals| - 1
    else IndexOf(vals[..|vals| - 1], a)
  }
}
