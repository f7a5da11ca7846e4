/** `Connector` itself.  Results of system calls are arguments. */
module ConnectorClass {
  import opened Machine
  import opened ChannelModel
  import M = ConnectorModel

  class Connector {
    var connecting: bool      // connect_
    var state: M.State
    var channel: M.ChannelPtr
    var watched: bool
    var retryDelayMs: nat
    var timerId: nat

    // the loop's queues, as far as they concern this connector, and its place in handleEvent
    ghost var queues: M.Queues
    ghost var phase: M.Phase

    ghost var started: bool
    ghost var restartable: bool
    ghost var log: M.Log

    ghost function View(): M.Connector
      reads this
    {
      M.Connector(connecting, state, channel, watched, retryDelayMs, timerId, phase, started, restartable, queues, log)
    }

    constructor ()
      ensures View() == M.Init()
    {
      connecting, state, channel, watched := false, M.Disconnected, M.Null, false;
      retryDelayMs, timerId, phase := M.INIT_RETRY_DELAY_MS, 0, M.Idle;
      queues, started, restartable := M.Queues({}, 0, 0, [], 0), false, false;
      log := M.Log(0, [], [], [], false, false);
    }

    method StartInLoop(fd: M.Socket, errno: M.Errno)
      requires fd == log.created && M.StartInLoop(View(), errno).Next?
      modifies this
      ensures M.StartInLoop(old(View()), errno) == Next(View())
    {
      assert state == M.Disconnected;
      if connecting {
        Connect(fd, errno);
      }
    }

    /** `fd` is the new socket, `errno` what connect(2) said. */
    method Connect(fd: M.Socket, errno: M.Errno)
      requires fd == log.created && M.Connect(View(), errno).Next?
      modifies this
      ensures M.Connect(old(View()), errno) == Next(View())
    {
      log := log.(created := log.created + 1);
      match errno
      case Success | EINPROGRESS | EINTR | EISCONN =>
        BeginConnecting(fd);
      case EAGAIN | EADDRINUSE | EADDRNOTAVAIL | ECONNREFUSED | ENETUNREACH =>
        Retry(fd);
      case _ =>
        Close(fd);
        log := log.(gaveUp := true);
    }

    method BeginConnecting(fd: M.Socket)
      requires M.BeginConnecting(View(), fd).Next?
      modifies this
      ensures M.BeginConnecting(old(View()), fd) == Next(View())
    {
      state := M.Connecting;
      assert channel == M.Null;
      channel := M.Owned(fd);
      watched := true;
    }

    method Restart(fd: M.Socket, errno: M.Errno)
      requires fd == log.created && M.Step(View(), M.Restart(errno)).Next?
      modifies this
      ensures M.Step(old(View()), M.Restart(errno)) == Next(View())
    {
      restartable, log := false, log.(delays := []);
      state := M.Disconnected;
      retryDelayMs := M.INIT_RETRY_DELAY_MS;
      connecting := true;
      assert View() == M.Reset(old(View()));
      StartInLoop(fd, errno);
    }

    method RemoveAndResetChannel() returns (fd: M.Socket)
      requires channel.Owned?
      modifies this
      ensures View() == M.RemoveAndResetChannel(old(View())) && fd == channel.fd
    {
      watched := false;
      fd := channel.fd;
      queues := queues.(resets := queues.resets + 1);
    }

    method HandleWrite(soError: bool, selfConnect: bool)
      requires M.HandleWrite(View(), soError, selfConnect).Next?
      modifies this
      ensures M.HandleWrite(old(View()), soError, selfConnect) == Next(View())
    {
      if state == M.Connecting {
        var fd := RemoveAndResetChannel();
        if soError || selfConnect {
          Retry(fd);
        } else {
          state := M.Connected;
          if connecting {
            log, restartable := log.(handed := log.handed + [fd]), true;
          } else {
            Close(fd);
          }
        }
      } else {
        assert state == M.Disconnected;
      }
    }

    method HandleError()
      requires M.HandleError(View()).Next?
      modifies this
      ensures M.HandleError(old(View())) == Next(View())
    {
      assert state == M.Connecting;
      var fd := RemoveAndResetChannel();
      Retry(fd);
    }

    /** close(2) */
    method Close(fd: M.Socket)
      modifies this`log
      ensures log == M.Close(old(log), fd)
    {
      log := log.(closed := log.closed + [fd]);
    }

    method Retry(fd: M.Socket)
      modifies this
      ensures View() == M.Retry(old(View()), fd)
    {
      Close(fd);
      state := M.Disconnected;
      if connecting {
        timerId := timerId + 1;
        queues, log := queues.(timers := queues.timers + {timerId}), log.(delays := log.delays + [retryDelayMs]);
        retryDelayMs := M.Doubled(retryDelayMs);
      }
    }
  }
}
