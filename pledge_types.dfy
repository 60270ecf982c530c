/** Values shared by the pledge registry: records, error codes, results and
    the ordered validation rules that every mutating operation runs. */
module PledgeTypes {

  datatype Option<T> = None | Some(value: T)

  /** An operation either succeeds with a value or fails with one error code;
      a failure never changes the registry. */
  datatype Result<T> = Ok(value: T) | Err(error: Error)

  /** The registry's error codes. PledgeAlreadyExists, InsufficientFunds and
      InvalidUpdateParam are declared by the system but no operation returns them. */
  datatype Error =
    | NotAuthorized
    | InvalidAmount
    | InvalidInterval
    | InvalidDuration
    | InvalidStartBlock
    | PledgeAlreadyExists
    | PledgeNotFound
    | PledgeInactive
    | InsufficientFunds
    | PaymentNotDue
    | InvalidCreator
    | InvalidCurrency
    | InvalidGracePeriod
    | InvalidPenalty
    | InvalidPerkThreshold
    | MaxPledgesExceeded
    | InvalidUpdateParam
    | EscrowNotSet
    | AuthorityNotVerified

  /** The numeric code a caller sees for each error. */
  function Code(e: Error): (c: nat)
    ensures 100 <= c <= 120 && c != 111 && c != 117
  {
    match e
    case NotAuthorized => 100
    case InvalidAmount => 101
    case InvalidInterval => 102
    case InvalidDuration => 103
    case InvalidStartBlock => 104
    case PledgeAlreadyExists => 105
    case PledgeNotFound => 106
    case PledgeInactive => 107
    case InsufficientFunds => 108
    case PaymentNotDue => 109
    case InvalidCreator => 110
    case MaxPledgesExceeded => 112
    case InvalidUpdateParam => 113
    case EscrowNotSet => 114
    case InvalidPerkThreshold => 115
    case InvalidCurrency => 116
    case InvalidGracePeriod => 118
    case InvalidPenalty => 119
    case AuthorityNotVerified => 120
  }

  /** No two errors share a code, so a caller can branch on the number alone. */
  lemma CodesDistinct(e1: Error, e2: Error)
    ensures Code(e1) == Code(e2) <==> e1 == e2
  {
  }

  /** A recurring pledge from `patron` to `creator`. */
  datatype Pledge = Pledge(
    patron: string,
    creator: string,
    amount: int,
    interval: int,
    startBlock: int,
    duration: int,
    paymentsMade: nat,
    lastPaymentBlock: int,
    active: bool,
    currency: string,
    gracePeriod: int,
    penaltyRate: int,
    perkThreshold: int)

  /** The latest change a patron made to a pledge's terms. */
  datatype PledgeUpdate = PledgeUpdate(
    updateAmount: int,
    updateInterval: int,
    updateDuration: int,
    updateTimestamp: int,
    updater: string)

  /** A recorded instruction to move `amount` from the escrow to a creator. */
  datatype Transfer = Transfer(amount: int, from: string, to: string)

  /** The two secondary indexes key pledges by one of these two parties. */
  datatype Role = Patron | Creator

  function Party(p: Pledge, role: Role): string
  {
    match role
    case Patron => p.patron
    case Creator => p.creator
  }

  const DefaultMaxPledges: int := 10000
  const DefaultMinAmount: int := 10
  const DefaultInterval: int := 4320
  const MaxGracePeriod: int := 30
  const MaxPenaltyRate: int := 100
  const Currencies: seq<string> := ["STX", "USD", "BTC"]

  /** An escrow or authority reference counts as configured only when it is
      present and not the empty string (the host language's truthiness). */
  predicate IsSet(reference: Option<string>)
  {
    reference.Some? && reference.value != ""
  }

  /** Validation as a list of rules checked in order: the first rule that does
      not hold decides the error, and the operation proceeds only if all hold. */
  datatype Rules = Accept | Require(holds: bool, error: Error, rest: Rules)

  function Verdict(rules: Rules): Option<Error>
  {
    match rules
    case Accept => None
    case Require(holds, error, rest) => if !holds then Some(error) else Verdict(rest)
  }

  /** Turns a verdict into the operation's result, `value` on acceptance. */
  function Decide<T>(verdict: Option<Error>, value: T): Result<T>
  {
    match verdict
    case Some(e) => Err(e)
    case None => Ok(value)
  }
}
