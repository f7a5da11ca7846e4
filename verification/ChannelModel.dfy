/** Event masks of a channel, what poll() answers, and the order of the callbacks. */
module ChannelModel {

  /** `events_`: kReadEvent is POLLIN | POLLPRI, kWriteEvent is POLLOUT. */
  datatype Interest = Interest(read: bool, write: bool) {
    predicate IsNone() { !read && !write }
  }

  const NONE := Interest(false, false)

  /** `revents_`, flag by flag. */
  datatype Ready = Ready(pollin: bool, pri: bool, out: bool, err: bool, hup: bool, nval: bool) {
    predicate IsSet() { pollin || pri || out || err || hup || nval }
  }

  const NOTHING := Ready(false, false, false, false, false, false)

  /** What poll() may report for an entry that is not ignored: requested events, and the three it always reports.
      POLLRDHUP is never requested, so it is never reported. */
  predicate Allowed(r: Ready, events: Interest) {
    (r.pollin || r.pri ==> events.read) && (r.out ==> events.write)
  }

  datatype Callback = Close | Error | Read | Write

  /** The callbacks `handleEvent` makes, in order. */
  function Dispatch(r: Ready): seq<Callback> {
    (if r.hup && !r.pollin then [Close] else [])
    + (if r.err || r.nval then [Error] else [])
    + (if r.pollin || r.pri then [Read] else [])
    + (if r.out then [Write] else [])
  }

  /** One registered channel as the poller sees it; `muted` is a slot holding `-fd - 1`. */
  datatype Registration = Registration(events: Interest, muted: bool)

  /** `updateChannel` on a registered channel: an empty mask mutes the slot, and nothing unmutes it. */
  function Reregister(r: Registration, events: Interest): Registration {
    Registration(events, r.muted || events.IsNone())
  }
}
