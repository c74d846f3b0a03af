/** The two catch clauses that end `HandleRequest`: what they log and which
    boolean they hand back to the broker. */
module Classifier {
  import opened Reflection

  datatype LogLevel = Warning | Error

  /** One logger call: its level and the exception it is given. */
  datatype LogEntry = LogEntry(level: LogLevel, exception: Exception)

  /** What one classification produces: the result and the log entries it appends. */
  datatype Outcome = Outcome(result: bool, entries: seq<LogEntry>)

  /** The number of entries of the given level. */
  function CountLevel(entries: seq<LogEntry>, level: LogLevel): (n: nat)
    ensures n <= |entries|
  {
    if entries == [] then 0
    else (if entries[0].level == level then 1 else 0) + CountLevel(entries[1..], level)
  }

  lemma {:induction false} CountLevelAppend(a: seq<LogEntry>, b: seq<LogEntry>, level: LogLevel)
    ensures CountLevel(a + b, level) == CountLevel(a, level) + CountLevel(b, level)
  {
    if a == [] {
      assert a + b == b;
    } else {
      assert (a + b)[0] == a[0];
      assert (a + b)[1..] == a[1..] + b;
      CountLevelAppend(a[1..], b, level);
    }
  }

  /** Classifies the exception that reached the catch clauses (`None` when the
      try block completed): completion gives true and no entry, a
      CustomException one warning and true, anything else one error and false. */
  function Classify(caught: Option<Exception>): (o: Outcome)
    ensures o.result <==> caught.None? || IsCustomException(caught.value)
    ensures |o.entries| == (if caught.Some? then 1 else 0)
    ensures forall k :: 0 <= k < |o.entries| ==> caught == Some(o.entries[k].exception)
  {
    match caught
    case None => Outcome(true, [])
    case Some(e) =>
      if IsCustomException(e) then Outcome(true, [LogEntry(Warning, e)])
      else Outcome(false, [LogEntry(Error, e)])
  }

  /** A CustomException adds exactly one warning and no error; any other
      exception exactly one error and no warning; completion neither. */
  lemma ClassifyCounts(caught: Option<Exception>)
    ensures CountLevel(Classify(caught).entries, Warning) ==
              (if caught.Some? && IsCustomException(caught.value) then 1 else 0)
    ensures CountLevel(Classify(caught).entries, Error) ==
              (if caught.Some? && !IsCustomException(caught.value) then 1 else 0)
  {
  }
}
