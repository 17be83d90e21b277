/**
 * ItemClientFallbackFactory: the substitute ItemClient used when a call to the item
 * service fails. The bulk lookup degrades to an empty list; the stock deduction
 * propagates a RuntimeException that carries the original cause.
 */
module ItemClientFallback {
  import opened Wrappers

  /** The throwable handed to create: its class name and message, nothing more is read. */
  datatype Throwable = Throwable(className: string, message: string)

  /** RuntimeException(message, cause). */
  datatype RuntimeException = RuntimeException(message: string, cause: Throwable)

  /** The DTOs the client exchanges; the fallback never looks inside them. */
  type ItemDTO
  type OrderDetailDTO

  /** The anonymous ItemClient returned by create, closed over the cause. */
  datatype FallbackClient = FallbackClient(cause: Throwable)

  /** Degrade: carry on with a default value. Propagate: raise to the caller. */
  datatype Policy = Degrade | Propagate

  /** The two operations of ItemClient, with their arguments. */
  datatype Call = QueryItemByIds(ids: seq<int>) | DeductStock(items: seq<OrderDetailDTO>)

  const DeductStockFailed := "库存扣减失败，请稍后重试"

  function Create(throwable: Throwable): (client: FallbackClient)
    ensures client.cause == throwable
  {
    FallbackClient(throwable)
  }

  /** queryItemByIds: an empty list, for any ids and any cause; it never throws. */
  function QueryItemByIdsFallback(client: FallbackClient, ids: seq<int>): (r: Result<seq<ItemDTO>, RuntimeException>)
    ensures r == Success([])
  {
    Success([])
  }

  /** deductStock: never returns normally; it throws with a fixed message and the captured cause. */
  function DeductStockFallback(client: FallbackClient, items: seq<OrderDetailDTO>): (r: Result<(), RuntimeException>)
    ensures r.Failure?
    ensures r.error.message == DeductStockFailed && r.error.cause == client.cause
  {
    Failure(RuntimeException(DeductStockFailed, client.cause))
  }

  /** Which policy each operation follows: reads degrade, the stock write propagates. */
  function PolicyOf(call: Call): Policy {
    match call
    case QueryItemByIds(_) => Degrade
    case DeductStock(_) => Propagate
  }

  /** The fallback applied to a call: true when it returns normally, false when it throws. */
  function ReturnsNormally(client: FallbackClient, call: Call): bool {
    match call
    case QueryItemByIds(ids) => QueryItemByIdsFallback(client, ids).Success?
    case DeductStock(items) => DeductStockFallback(client, items).Success?
  }

  /**
   * Degrade versus propagate follows the operation alone: for any two throwables the
   * outcome is the same, and it is the one PolicyOf names.
   */
  lemma PolicyIndependentOfCause(t1: Throwable, t2: Throwable, call: Call)
    ensures ReturnsNormally(Create(t1), call) == ReturnsNormally(Create(t2), call)
    ensures ReturnsNormally(Create(t1), call) <==> PolicyOf(call) == Degrade
  {
  }

  /** The failure raised by the write is the same for every argument list, up to its cause. */
  lemma PropagatedFailureKeepsCause(throwable: Throwable, items: seq<OrderDetailDTO>)
    ensures DeductStockFallback(Create(throwable), items) == Failure(RuntimeException(DeductStockFailed, throwable))
  {
  }
}
