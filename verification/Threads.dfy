/** Goroutines by number, each at some point of its program. */
module Threads {
  type Thread = nat

  /** The goroutines whose program counter passes the test. */
  function Where<PC>(threads: map<Thread, PC>, test: PC -> bool): set<Thread> {
    set t | t in threads && test(threads[t])
  }

  lemma CountAfter<PC>(threads: map<Thread, PC>, thread: Thread, pc: PC, test: PC -> bool)
    ensures var was := thread in threads && test(threads[thread]);
      |Where(threads[thread := pc], test)| ==
        |Where(threads, test)| - (if was then 1 else 0) + (if test(pc) then 1 else 0)
  {
    var before, after := Where(threads, test), Where(threads[thread := pc], test);
    var others := before - {thread};
    assert after == if test(pc) then others + {thread} else others;
    assert before == if thread in threads && test(threads[thread]) then others + {thread} else others;
  }
}
