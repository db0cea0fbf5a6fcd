/** The part of the simulation kernel every machine of this project uses: options and
    signals with delayed update.

    A kernel cycle has an evaluate phase, in which runnable processes run one at a time
    up to their next wait, then an update phase, in which every signal takes the last
    value written to it and the events of the cycle fire. Only when nothing is runnable
    and nothing is pending does time move. */
module Kernel {

  datatype Option<+T> = None | Some(value: T)

  /** A signal: readers see `cur`, writers set `next`, the update phase copies one to the other. */
  datatype Signal<T(==)> = Signal(cur: T, next: T) {
    function Write(v: T): Signal<T> { Signal(cur, v) }

    function Update(): Signal<T> { Signal(next, next) }

    predicate Changes() { cur != next }
  }

  /** The coming update phase raises this signal, so its posedge event fires. */
  predicate Rises(s: Signal<bool>) { !s.cur && s.next }
}
