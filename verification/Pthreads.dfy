/** A POSIX mutex together with the condition variable used with it (System Interfaces volume of
    POSIX.1-2017, pthread_mutex_lock, pthread_cond_wait and pthread_cond_signal).

    Each condition variable of the modelled programs has exactly one thread that ever waits on it, so
    at most one thread sleeps.  An operation that cannot happen now is None: locking a mutex that is
    held, and also unlocking or waiting with a mutex that the caller does not own.  A program whose runs
    never get stuck therefore never does the latter either. */
module Pthreads {
  import opened Runs

  datatype Monitor = Monitor(owner: Option<nat>, sleeper: Option<nat>)

  const IDLE := Monitor(None, None)

  function Lock(m: Monitor, t: nat): Option<Monitor> {
    if m.owner == None then Some(m.(owner := Some(t))) else None
  }

  function Unlock(m: Monitor, t: nat): Option<Monitor> {
    if m.owner == Some(t) then Some(m.(owner := None)) else None
  }

  /** Releases the mutex and falls asleep in one atomic action. */
  function Wait(m: Monitor, t: nat): Option<Monitor> {
    if m.owner == Some(t) then Some(Monitor(None, Some(t))) else None
  }

  /** Wakes the sleeper; a signal that finds nobody asleep is lost. */
  function Signal(m: Monitor): Monitor {
    m.(sleeper := None)
  }

  /** The end of a wait: a woken thread must take the mutex again before it goes on. */
  function Relock(m: Monitor, t: nat): Option<Monitor> {
    if m.sleeper == Some(t) then None else Lock(m, t)
  }

  /** A wakeup that no signal caused. */
  function WakeSpuriously(m: Monitor, t: nat): Option<Monitor> {
    if m.sleeper == Some(t) then Some(m.(sleeper := None)) else None
  }
}
