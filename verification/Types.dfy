/** Basic types shared by the model of the simulated network and of the payment scheduler. */
module Types {

  const U64_MAX: int := 0xFFFF_FFFF_FFFF_FFFF
  const U32_MAX: int := 0xFFFF_FFFF

  /** Rust's unsigned integers. Arithmetic on them is over `int`; storing a result in a variable
      of one of these types obliges the verifier to prove that it is in range. */
  type U64 = x: int | 0 <= x <= U64_MAX
  type U32 = x: int | 0 <= x <= U32_MAX

  /** Public keys, short channel ids and payment hashes: only equality and, for keys, order matter. */
  type NodeId = nat
  type Scid = nat
  type Hash = nat

  datatype Option<+T> = None | Some(value: T)

  /** Why a node refused to forward an HTLC. */
  datatype ForwardingError =
    | InsufficientBalance(amount: nat, balance: int)
    | LessThanMinimum(amount: nat, minimum: nat)
    | MoreThanMaximum(amount: nat, maximum: nat)
    | ExceedsInFlightCount(count: nat, maximum: nat)
    | ExceedsInFlightTotal(total: nat, maximum: nat)
    | ExpiryInSeconds(expiry: nat, limit: nat)
    | InsufficientCltvDelta(delta: nat, required: nat)
    | InsufficientFee(fee: nat, base: nat, prop: nat, required: nat)
    | InterceptorFailure

  /** A breakdown of the simulation that warrants a shutdown. */
  datatype CriticalError =
    | ZeroAmountHtlc
    | ChannelNotFound(scid: Scid)
    | NodeNotFound(node: NodeId)
    | PaymentHashExists(hash: Hash)
    | PaymentHashNotFound(hash: Hash)
    | FeeOverflow(amount: nat, base: nat, prop: nat)
    | SanityCheckFailed(balance: int, capacity: nat)
    | DuplicateCustomRecord(key: nat)
    | InterceptorBroke

  /** Models `Result<Result<T, ForwardingError>, CriticalError>`. */
  datatype Outcome<+T> = Accepted(value: T) | Refused(why: ForwardingError) | Critical(error: CriticalError)
}
