/** The values the contract stores and returns. */
module DaoTypes {
  import opened Wrappers
  import opened Curve

  /** An account or contract address. */
  datatype Address = Address(id: nat)

  /** A project key: the hash of the project name. */
  datatype Key = Key(hash: nat)

  datatype Error =
    | Unauthorized            // the host's `require_auth` trap
    | ArithmeticTrap          // checked arithmetic in the release profile
    | UnauthorizedSigner
    | WrongVoter
    | InvalidKey
    | ProposalInputValidation
    | WrongVoteType
    | BadCommitment
    | VoterWeight
    | VoteLimitExceeded
    | VoterConflicted
    | NoProposalOrPageFound
    | NoAnonymousVotingConfig
    | AlreadyVoted
    | ProposalVotingTime
    | ProposalActive
    | OutcomeError
    | VoteNotFound
    | TallySeedError
    | InvalidProof
    | ContractPaused
    | CollateralError
    | ProjectAlreadyExist
    | InvalidProjectName
    | MissingMaintainer
    | MemberAlreadyExist
    | UnknownMember
    | UpgradeError

  /** A panic is an `Err`: the host rolls every effect of the call back. */
  datatype Result<+T> = Ok(value: T) | Err(error: Error) {
    predicate IsFailure() {
      Err?
    }

    function PropagateFailure<U>(): Result<U>
      requires Err?
    {
      Err(error)
    }

    function Extract(): T
      requires Ok?
    {
      value
    }
  }

  function Need(condition: bool, error: Error): Result<()> {
    if condition then Ok(()) else Err(error)
  }

  /** The state after a call: one that fails changes nothing. */
  function Settled<S>(before: S, after: Result<S>): S {
    if after.Ok? then after.value else before
  }

  /** What a call that returns nothing answers. */
  function Verdict<S>(after: Result<S>): (r: Result<()>)
    ensures r.Ok? <==> after.Ok?
    ensures r.Err? ==> after == Err(r.error)
  {
    if after.Ok? then Ok(()) else Err(after.error)
  }

  /******* Proposals *******/

  const PROPOSAL_COLLATERAL: nat := 5 * 10_000_000
  const VOTE_COLLATERAL: nat := 2 * 10_000_000
  const REGISTER_COLLATERAL: nat := 5 * 10_000_000
  const MAX_TITLE_LENGTH: nat := 256
  const MAX_PROPOSALS_PER_PAGE: nat := 9
  const MAX_PAGES: nat := 1000
  const MIN_VOTING_PERIOD: nat := 24 * 3600
  const MAX_VOTING_PERIOD: nat := 30 * 24 * 3600
  const MAX_VOTES_PER_PROPOSAL: nat := 40
  const TIMELOCK_DELAY: nat := 24 * 3600

  datatype Status = Active | Approved | Rejected | Cancelled | Malicious

  datatype Choice = Approve | Reject | Abstain

  datatype Vote<P> =
    | PublicVote(address: Address, weight: u32, choice: Choice)
    | AnonymousVote(address: Address, weight: u32, encryptedSeeds: seq<string>, encryptedVotes: seq<string>,
                    commitments: seq<P>)

  /** Running totals for approve, reject and abstain, in this order. */
  datatype Tallies<P> = PublicTallies(sums: seq<nat>) | AnonymousTallies(points: seq<P>)

  datatype Project = Project(name: string, maintainers: seq<Address>, url: string, ipfs: string)

  datatype Proposal = Proposal(
    id: nat,
    title: string,
    proposer: Address,
    ipfs: string,
    votingEndsAt: nat,
    publicVoting: bool,
    token: Option<Address>,
    outcomes: Option<nat>,      // how many outcome contracts are listed
    status: Status)

  function Index(choice: Choice): nat {
    match choice
    case Approve => 0
    case Reject => 1
    case Abstain => 2
  }
}
