/**
 * Shared types of the firmware: the fixed-width unsigned integers, the
 * error codes every module returns, and the flags of the system error sink.
 */
module Types {

  type uint8 = x: int | 0 <= x < 0x100
  type uint16 = x: int | 0 <= x < 0x1_0000
  type uint32 = x: int | 0 <= x < 0x1_0000_0000

  /** A value that may be absent: `None` stands for a NULL pointer argument. */
  datatype Option<+T> = None | Some(value: T)

  /**
   * Error_t. Only ERROR_OK and ERROR_INVALID_ACTION are named by the modelled
   * code; every other code a collaborator may return is `ErrorOther(code)`.
   */
  datatype ErrorCode = ErrorOk | ErrorInvalidAction | ErrorOther(code: nat)

  /** The error flags passed to System_RaiseError by the modelled modules. */
  datatype SystemErrorFlag = SupervisorFailure | HalGpioFailure

  /**
   * The system error service, seen from its callers: the flags raised so
   * far, in order. What the service does with a flag is not modelled.
   */
  class System {
    var raised: seq<SystemErrorFlag>

    constructor ()
      ensures raised == []
    {
      raised := [];
    }

    /** System_RaiseError(flag). */
    method RaiseError(flag: SystemErrorFlag)
      modifies this
      ensures raised == old(raised) + [flag]
    {
      raised := raised + [flag];
    }
  }
}
