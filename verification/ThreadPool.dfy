/** `ThreadPool` itself: one method per section that runs under `mutex_`. */
module ThreadPoolClass {
  import opened Machine
  import opened ThreadPoolModel

  class ThreadPool {
    var taskQueue: seq<Task>
    var maxQueueSize: nat
    var running: bool

    // the threads inside the pool's code; those Asleep or Blocked are in the wait sets of notEmpty_ and notFull_
    var workers: map<nat, Worker>
    var producers: map<Caller, Producer>

    ghost var accepted: seq<Task>
    ghost var taken: seq<Task>

    ghost function View(): Pool
      reads this
    {
      Pool(taskQueue, maxQueueSize, running, workers, producers, accepted, taken)
    }

    constructor (maxSize: nat, threads: set<nat>)
      ensures View() == Started(maxSize, threads)
    {
      taskQueue, maxQueueSize, running := [], maxSize, true;
      workers, producers := map w | w in threads :: Looping, map[];
      accepted, taken := [], [];
    }

    predicate IsFull()
      reads this
      ensures IsFull() == ThreadPoolModel.IsFull(View())
    {
      maxQueueSize > 0 && |taskQueue| >= maxQueueSize
    }

    /** `pthread_cond_signal(notEmpty_)`; `wake` is the waiter the system picks, if there is one. */
    method NotifyNotEmpty(wake: nat)
      requires AsleepWorkers(View()) != {} ==> wake in AsleepWorkers(View())
      modifies this`workers
      ensures View() == NotifyWorker(old(View()), wake)
    {
      if wake in workers && workers[wake].Asleep? {
        workers := workers[wake := Woken];
      }
    }

    /** `pthread_cond_signal(notFull_)`. */
    method NotifyNotFull(wake: Caller)
      requires BlockedProducers(View()) != {} ==> wake in BlockedProducers(View())
      modifies this`producers
      ensures View() == NotifyProducer(old(View()), wake)
    {
      if wake in producers && producers[wake].Blocked? {
        producers := producers[wake := Awake(producers[wake].task)];
      }
    }

    /** `addTask` of caller `p`, from taking the mutex to releasing it: it waits, or its task is in. */
    method AddTask(p: Caller, wake: nat) returns (done: bool)
      requires AddSection(View(), p, wake).Next?
      modifies this
      ensures AddSection(old(View()), p, wake) == Next(View())
      ensures done <==> !ThreadPoolModel.IsFull(old(View()))
    {
      var task := producers[p].task;
      if IsFull() {
        producers := producers[p := Blocked(task)];
        return false;
      }
      assert !IsFull();
      taskQueue := taskQueue + [task];
      accepted := accepted + [task];
      producers := producers[p := Done];
      NotifyNotEmpty(wake);
      return true;
    }

    /** `takeTask` of worker `w`, from taking the mutex to releasing it: it waits, or it leaves with a task or
        without. */
    method TakeTask(w: nat, wake: Caller)
      requires TakeSection(View(), w, wake).Next?
      modifies this
      ensures TakeSection(old(View()), w, wake) == Next(View())
    {
      if |taskQueue| == 0 && running {
        workers := workers[w := Asleep];
        return;
      }
      if |taskQueue| != 0 {
        var task := taskQueue[0];
        taskQueue := taskQueue[1..];
        taken := taken + [task];
        workers := workers[w := Working(task)];
        if maxQueueSize > 0 {
          NotifyNotFull(wake);
        }
      } else {
        workers := workers[w := Looping];
      }
    }

    /** The locked part of `stop`. */
    method Stop()
      modifies this`running, this`workers
      ensures View() == StopSection(old(View()))
    {
      running := false;
      workers := map w | w in workers :: if workers[w].Asleep? then Woken else workers[w];
    }
  }
}
