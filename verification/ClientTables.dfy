/**
  The fields that client.entityMutex protects (client/client.go:38-43) and the effect of each
  section that runs under it, for any way C of naming a *Call. The Client class is proved
  against these functions, and the call protocol takes its steps with them.
 */
module ClientTables {
  import opened Wrappers

  datatype CallError =
    | Closed
    | ShutDown
    | EncodeFailed
    | Remote(text: string)
    | BadBody
    | Terminated

  datatype Tables<C> = Tables(next: nat, pending: map<nat, C>, isClosed: bool, isShutdown: bool)

  function NewTables<C>(): Tables<C> {
    Tables(1, map[], false, false)
  }

  predicate IsAvailable<C>(t: Tables<C>) {
    !t.isShutdown && !t.isClosed
  }

  /** Why addCall refuses; isClosed is tested first. */
  function Refusal<C>(t: Tables<C>): Option<CallError> {
    if t.isClosed then Some(Closed) else if t.isShutdown then Some(ShutDown) else None
  }

  /** A successful addCall: the call takes number t.next. */
  function Register<C>(t: Tables<C>, call: C): Tables<C> {
    t.(next := t.next + 1, pending := t.pending[t.next := call])
  }

  function Lookup<C>(t: Tables<C>, number: nat): Option<C> {
    if number in t.pending then Some(t.pending[number]) else None
  }

  /** deleteCall; its result is Lookup in the state before. */
  function Remove<C>(t: Tables<C>, number: nat): Tables<C> {
    t.(pending := t.pending - {number})
  }
}
