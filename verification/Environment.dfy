/** What no worker controls: failures, crashes, the answers of remote services. */
module Environment {
  import opened Wrappers

  /** How a job ended. `Threw` stands for a crash as well: either way the worker's
      local variables are gone and the job may run again. */
  datatype JobResult = Done | Skipped | NonRetryable | Threw

  /** How one pass of a scanner's loop ended. */
  datatype TickEnd = Completed | Aborted | TickThrew

  datatype Reply = Yes | No | Error

  /** The environment of a process, which counts what goes wrong in it. */
  class Env {
    /** What the FairCoin node says of an address, when it answers. */
    const isValid: string -> bool

    /** How often a call failed, a process died, or a service did not say yes. */
    ghost var setbacks: nat

    /** What a service last answered. */
    ghost var said: Reply

    constructor (isValid: string -> bool) { this.isValid, setbacks, said := isValid, 0, Yes; }

    /** Whether a call fails, or the process dies, at this point. */
    method Dies() returns (dies: bool)
      modifies this`setbacks
      ensures setbacks == old(setbacks) + (if dies then 1 else 0)
    {
      dies := *;
      if dies { setbacks := setbacks + 1; }
    }

    /** `validateaddress`: the node's answer, unless the call fails. */
    method ValidateAddress(address: string) returns (answer: Option<bool>)
      modifies this`setbacks
      ensures setbacks == old(setbacks) + (if answer.Some? then 0 else 1)
      ensures answer.Some? ==> answer.value == isValid(address)
    {
      var dies := Dies();
      answer := if dies then None else Some(isValid(address));
    }

    /** What a service answers. */
    method Ask() returns (reply: Reply)
      modifies this
      ensures setbacks == old(setbacks) + (if reply.Yes? then 0 else 1) && said == reply
    {
      reply := *;
      said := reply;
      if !reply.Yes? { setbacks := setbacks + 1; }
    }
  }

  /** Whether a call fails, or the process dies, at this point. */
  method Dies() returns (dies: bool) { dies := *; }

  method AnyCount() returns (n: nat) { n := *; }

  method AnyReply() returns (r: Reply) { r := *; }
}
