/** Optional values and the ways a script step can end. */
module Results {

  datatype Option<+T> = None | Some(value: T)

  /** How a step of a script ends: it returns normally with a value, it calls
      `sys.exit()` after a failed command, or Python raises an uncaught
      IndexError (indexing an empty command output or a missing TSV field). */
  datatype Status<+T> = Done(value: T) | Exited | Crashed

  /** The same ending with the returned value dropped. */
  function Ending<T>(s: Status<T>): (r: Status<()>)
    ensures r.Done? == s.Done? && r.Exited? == s.Exited?
  {
    match s
    case Done(_) => Done(())
    case Exited => Exited
    case Crashed => Crashed
  }

  /** An abnormal ending passed on unchanged to a caller with another result
      type: `sys.exit()` and an uncaught exception both end the whole script. */
  function Reraise<T, U>(s: Status<T>): (r: Status<U>)
    requires !s.Done?
    ensures !r.Done? && r.Exited? == s.Exited?
  {
    if s.Exited? then Exited else Crashed
  }
}
