/**
 * The MES exception hierarchy (`MESOperationException` and its four
 * subclasses) as one datatype carrying each constructor's arguments, with the
 * `error_type` tag and the formatted message each one produces, plus the other
 * ways an operation of the core can end with an exception.
 */
module MesErrors {
  import opened PyText

  /** The `order/asset/operation` text both key-carrying exceptions embed. */
  function KeyText(orderNo: string, assetId: int, operationNo: string): string {
    orderNo + "/" + IntToString(assetId) + "/" + operationNo
  }

  datatype MesError =
    | General(message: string, errorType: string)
    | OperationNotFound(orderNo: string, assetId: int, operationNo: string)
    | DuplicateOperation(orderNo: string, assetId: int, operationNo: string)
    | InvalidOperationState(currentStatus: string, attemptedAction: string)
    | InvalidQuantity(detail: string)
  {
    /** The exception's `error_type` attribute. */
    function ErrorType(): string {
      match this
      case General(_, t) => t
      case OperationNotFound(_, _, _) => "not_found"
      case DuplicateOperation(_, _, _) => "duplicate_operation"
      case InvalidOperationState(_, _) => "invalid_state_transition"
      case InvalidQuantity(_) => "invalid_quantity"
    }

    /** The exception's `message` attribute. */
    function Message(): string {
      match this
      case General(m, _) => m
      case OperationNotFound(o, a, p) => "Operation not found: " + KeyText(o, a, p)
      case DuplicateOperation(o, a, p) => "Operation already exists: " + KeyText(o, a, p)
      case InvalidOperationState(s, act) => "Cannot " + act + " operation with status '" + s + "'"
      case InvalidQuantity(m) => m
    }
  }

  /** `MESOperationException(message)`: the tag defaults to "general_error". */
  function BaseError(message: string): (e: MesError)
    ensures e.ErrorType() == "general_error"
    ensures e.Message() == message
  {
    General(message, "general_error")
  }

  /** How a call of the core can end other than by returning. */
  datatype Failure =
    | Mes(error: MesError)
      /** `ValueError` raised by the state machine. */
    | ValueError(message: string)
      /** `TypeError`: an unsupported comparison or a call with the wrong arity. */
    | TypeError(message: string)
      /** A request payload rejected by its pydantic schema (naming the field). */
    | SchemaError(field: string)
      /** A database constraint violation surfaced at commit. */
    | IntegrityError
      /** HTTP 403 raised by an access dependency, with its detail text. */
    | Forbidden(detail: string)

  /**
   * The subclasses' tags are fixed and pairwise distinct, so a tag other than
   * one chosen by a `General` error identifies the subclass.
   */
  lemma ErrorTypeIdentifiesSubclass(e: MesError)
    ensures e.ErrorType() == "not_found" ==> e.OperationNotFound? || e.General?
    ensures e.ErrorType() == "duplicate_operation" ==> e.DuplicateOperation? || e.General?
    ensures e.ErrorType() == "invalid_state_transition" ==> e.InvalidOperationState? || e.General?
    ensures e.ErrorType() == "invalid_quantity" ==> e.InvalidQuantity? || e.General?
    ensures !e.General? ==> e.ErrorType() != "general_error"
  {
  }

  /** Not-found and duplicate messages embed the same key text, with different prefixes. */
  lemma KeyMessages(o: string, a: int, p: string)
    ensures OperationNotFound(o, a, p).Message() != DuplicateOperation(o, a, p).Message()
    ensures InvalidQuantity(o).Message() == o
  {
    var nf := OperationNotFound(o, a, p).Message();
    var du := DuplicateOperation(o, a, p).Message();
    assert nf[10] == 'n' && du[10] == 'a';
  }
}
