/** `TcpConnection` itself, over a real output `Buffer`. */
module TcpConnectionClass {
  import opened Machine
  import opened ChannelModel
  import opened TcpConnectionModel
  import B = BufferModel
  import opened BufferClass

  class TcpConnection {
    var state: State
    var outputBuffer: Buffer

    // the channel: its mask, and its slot in the poller
    var events: Interest
    var slot: Slot

    // the loop's queue, as far as it concerns this connection, and its place in handleEvent
    ghost var jobs: seq<Job>
    ghost var others: Others
    ghost var phase: Phase

    ghost var log: Log

    ghost predicate Valid()
      reads this, outputBuffer, outputBuffer.buffer
    {
      B.Good(outputBuffer.View())
    }

    ghost function View(): Conn
      requires Valid()
      reads this, outputBuffer, outputBuffer.buffer
    {
      Conn(state, events, slot, B.Readable(outputBuffer.View()), jobs, others, phase, log)
    }

    constructor ()
      ensures Valid() && View() == Init()
    {
      var b := new Buffer();
      outputBuffer := b;
      state, events, slot := Connecting, NONE, Unregistered;
      jobs, others, phase, log := [], Others(0, []), Idle, NEW_LOG;
    }

    predicate IsWriting()
      reads this
    {
      events.write
    }

    /** `Channel::update` with a new mask. */
    method UpdateChannel(mask: Interest)
      requires Valid() && !slot.Removed?
      modifies this`events, this`slot
      ensures Valid() && Update(old(View()), mask) == Next(View())
    {
      events := mask;
      slot := if slot.Registered? then Registered(Reregister(slot.reg, mask))
          else Registered(Registration(mask, false));
    }

    /** `wrote` is the result of write(), negative for an error. */
    method SendInLoop(message: seq<Byte>, wrote: int)
      requires Valid() && TcpConnectionModel.SendInLoop(View(), message, wrote).Next?
      modifies this, outputBuffer, outputBuffer.buffer
      ensures Valid() && outputBuffer == old(outputBuffer)
      ensures TcpConnectionModel.SendInLoop(old(View()), message, wrote) == Next(View())
    {
      ghost var c := View();
      var nwrote := 0;
      // if nothing in the output queue, try writing directly
      if !IsWriting() && outputBuffer.ReadableBytes() == 0 {
        nwrote := if wrote >= 0 then wrote else 0;
        NoteSent(message, nwrote);
        if wrote == |message| {
          log := Completed(log);
        }
      } else {
        NoteSent(message, 0);
      }
      assert nwrote >= 0;
      if nwrote < |message| {
        Buffered(message[nwrote..]);
        if !IsWriting() {
          UpdateChannel(Interest(events.read, true));
        }
      }
    }

    /** Records what the kernel took of a message. */
    ghost method NoteSent(message: seq<Byte>, n: nat)
      requires Valid() && n <= |message|
      modifies this`log
      ensures Valid() && View() == old(View()).(log := Passed(old(log), message[..n], message))
    {
      log := Passed(log, message[..n], message);
    }

    /** The output buffer grows at its end; where it keeps the bytes does not matter. */
    method Buffered(rest: seq<Byte>)
      requires Valid()
      modifies outputBuffer, outputBuffer.buffer
      ensures Valid() && View() == old(View()).(output := old(View()).output + rest)
      ensures outputBuffer.buffer == old(outputBuffer.buffer) || fresh(outputBuffer.buffer)
    {
      B.StepRefines(outputBuffer.View(), B.Append(rest));
      outputBuffer.Append(rest);
    }

    method ShutdownInLoop()
      requires Valid()
      modifies this`log
      ensures Valid() && View() == TcpConnectionModel.ShutdownInLoop(old(View()))
    {
      if !IsWriting() {
        log := if log.half.Open? then log.(half := Shut(log.kernel, log.accepted, log.closes > 0)) else log;
      }
    }

    /** The write callback when write() returns `n`. */
    method HandleWrite(n: int)
      requires Valid() && TcpConnectionModel.HandleWrite(View(), n).Next?
      modifies this, outputBuffer
      ensures Valid() && outputBuffer == old(outputBuffer)
      ensures TcpConnectionModel.HandleWrite(old(View()), n) == Next(View())
    {
      if IsWriting() {
        log := Passed(log, B.Readable(outputBuffer.View())[..n], []);
        outputBuffer.Retrieve(n);
        if outputBuffer.ReadableBytes() == 0 {
          UpdateChannel(Interest(events.read, false));
          log := Completed(log);
          if state == Disconnecting {
            ShutdownInLoop();
          }
        }
      }
    }

    method HandleClose()
      requires Valid() && TcpConnectionModel.HandleClose(View()).Next?
      modifies this
      ensures Valid() && outputBuffer == old(outputBuffer)
      ensures TcpConnectionModel.HandleClose(old(View())) == Next(View())
    {
      assert state == Connected || state == Disconnecting;
      UpdateChannel(NONE);
      log := log.(closes := log.closes + 1, owed := log.owed + 1);
    }

    method HandleRead(n: int)
      requires Valid() && TcpConnectionModel.HandleRead(View(), n).Next?
      modifies this
      ensures Valid() && outputBuffer == old(outputBuffer)
      ensures TcpConnectionModel.HandleRead(old(View()), n) == Next(View())
    {
      if n == 0 {
        HandleClose();
      }
    }

    /** `inLoop` says whether the caller is the loop thread; another thread's functor is pushed later (the step
        `Pass`). */
    method Send(message: seq<Byte>, inLoop: bool, wrote: int)
      requires Valid() && (inLoop ==> Step(View(), TcpConnectionModel.Send(message, wrote)).Next?)
      modifies this, outputBuffer, outputBuffer.buffer
      ensures Valid() && outputBuffer == old(outputBuffer)
      ensures Step(old(View()), if inLoop then TcpConnectionModel.Send(message, wrote) else RemoteSend(message))
              == Next(View())
    {
      if state == Connected {
        Accept(message);
        if inLoop {
          SendInLoop(message, wrote);
        } else {
          others := others.(passing := others.passing + [SendJob(message)]);
        }
      }
    }

    /** Records that `send` has accepted a message. */
    ghost method Accept(message: seq<Byte>)
      requires Valid()
      modifies this`log
      ensures Valid() && View() == Accepting(old(View()), message)
    {
      log := log.(accepted := log.accepted + |message|);
    }

    /** On another thread this is the test of `state_` only; `FinishShutdown` is the rest. */
    method Shutdown(inLoop: bool)
      requires Valid()
      modifies this`state, this`log, this`others
      ensures Valid()
      ensures Step(old(View()), if inLoop then TcpConnectionModel.Shutdown else RemoteShutdown) == Next(View())
    {
      if state == Connected {
        if inLoop {
          state := Disconnecting;
          ShutdownInLoop();
        } else {
          others := others.(storing := others.storing + 1);
        }
      }
    }

    /** `shutdown` on another thread, after its test: whatever has happened meanwhile, it stores `state_`, and has its
        functor to push. */
    method FinishShutdown()
      requires Valid() && others.storing > 0
      modifies this`state, this`others
      ensures Valid() && Step(old(View()), Store) == Next(View())
    {
      state := Disconnecting;
      others := Others(others.storing - 1, others.passing + [ShutdownJob]);
    }

    method ConnectEstablished()
      requires Valid() && Step(View(), Establish).Next?
      modifies this
      ensures Valid() && outputBuffer == old(outputBuffer) && Step(old(View()), Establish) == Next(View())
    {
      assert state == Connecting;
      state := Connected;
      UpdateChannel(Interest(true, events.write));
    }

    method ConnectDestroyed()
      requires Valid() && TcpConnectionModel.ConnectDestroyed(View()).Next?
      modifies this
      ensures Valid() && outputBuffer == old(outputBuffer)
      ensures TcpConnectionModel.ConnectDestroyed(old(View())) == Next(View())
    {
      assert state == Connected || state == Disconnecting;
      state := Disconnected;
      UpdateChannel(NONE);
      slot := Removed;
    }
  }
}
