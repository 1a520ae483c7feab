/** A counting semaphore by itself; Semaphores.ViewStep proves that the kernel's behave so. */
module Counting {
  import opened Seqs

  /** A semaphore by itself: its value and its waiters, longest waiting first. */
  datatype Sema = Sema(value: int, queue: seq<nat>)

  function DownBy(s: Sema, p: nat): Sema {
    if s.value <= 0 then s.(queue := s.queue + [p]) else s.(value := s.value - 1)
  }

  function Up(s: Sema): Sema {
    if s.queue == [] then s.(value := s.value + 1) else s.(queue := s.queue[1..])
  }

  ghost function Drop(s: Sema, gone: set<nat>): Sema {
    s.(queue := Minus(s.queue, gone))
  }
}
