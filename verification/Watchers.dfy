/** Watchers and the event masks they are fed with. */
module Watchers {

  const NUMPRI: nat := 5
  type Pri = p: nat | p < NUMPRI  // ABSPRI: 0 is EV_MINPRI

  /** The bits of an event mask. */
  datatype Flag = READ | WRITE | IOFDSET | TIMER | PERIODIC | ASYNC | CHECK | CUSTOM | ERROR

  /** An event mask, as the set of bits that are set in it; `|` is union. */
  type Events = set<Flag>

  /** The members of ev_watcher, ev_watcher_time, ev_timer, ev_periodic and ev_io that the loop uses. */
  class Watcher {
    const pri: Pri
    var active: int   // 0 if inactive, else a slot number
    var pending: nat  // 0 if not pending, else a slot number in pendings[pri] plus one
    var at: real
    var repeat: real
    var offset: real
    var interval: real
    var hasCallback: bool  // reschedule_cb is set
    var fd: int
    var events: Events

    constructor (pri: Pri)
      ensures this.pri == pri && active == 0 && pending == 0
    {
      this.pri := pri;
      active, pending := 0, 0;
    }
  }
}
