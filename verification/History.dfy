/** Histories that only grow at their end. */
module History {

  datatype Log<T> = Start | Then(before: Log<T>, item: T)

  function Size<T>(log: Log<T>): nat {
    match log
    case Start => 0
    case Then(before, _) => Size(before) + 1
  }

  function AsSeq<T>(log: Log<T>): (s: seq<T>)
    ensures |s| == Size(log)
  {
    match log
    case Start => []
    case Then(before, x) => AsSeq(before) + [x]
  }
}
