/** The request listener: every completed request is classified by whether it raised and by
    its response time, and logged at the matching severity. */
module Classifier {
  import opened Strings

  /** How a completed request is reported. */
  datatype Outcome =
    | Failure          // an exception was reported with the request
    | LongRequest      // more than 20 seconds
    | AtLeastASecond   // more than one second
    | Normal           // anything else

  /** The logger method a record goes to. */
  datatype Severity = Info | Warning | Error

  const LongThreshold: real := 20000.0
  const SlowThreshold: real := 1000.0

  /** The if/elif chain of log_request; response times are milliseconds and both thresholds are strict. */
  function Classify(raised: bool, responseTime: real): (o: Outcome)
    ensures o == Failure <==> raised
    ensures o == LongRequest <==> !raised && responseTime > LongThreshold
    ensures o == AtLeastASecond <==> !raised && SlowThreshold < responseTime <= LongThreshold
    ensures o == Normal <==> !raised && responseTime <= SlowThreshold
  {
    if raised then Failure
    else if responseTime > LongThreshold then LongRequest
    else if responseTime > SlowThreshold then AtLeastASecond
    else Normal
  }

  function SeverityOf(o: Outcome): Severity {
    match o
    case Failure => Error
    case LongRequest => Warning
    case AtLeastASecond => Warning
    case Normal => Info
  }

  /** How serious an outcome is: Normal < AtLeastASecond < LongRequest < Failure. */
  function Rank(o: Outcome): nat {
    match o
    case Normal => 0
    case AtLeastASecond => 1
    case LongRequest => 2
    case Failure => 3
  }

  /** A slower request is never reported as less serious than a faster one. */
  lemma SlowerIsNoMilder(raised: bool, faster: real, slower: real)
    requires faster <= slower
    ensures Rank(Classify(raised, faster)) <= Rank(Classify(raised, slower))
  {
  }

  /** A reported exception decides the outcome whatever the response time. */
  lemma ExceptionDominates(t1: real, t2: real)
    ensures Classify(true, t1) == Classify(true, t2) == Failure
    ensures SeverityOf(Classify(true, t1)) == Error
  {
  }

  /** The boundaries: exactly 1000 ms is normal and exactly 20000 ms is "At least a second". */
  lemma ClassifyBoundaries()
    ensures Classify(false, 1000.0) == Normal
    ensures Classify(false, 1000.5) == AtLeastASecond
    ensures Classify(false, 20000.0) == AtLeastASecond
    ensures Classify(false, 20000.5) == LongRequest
    ensures Classify(false, 25000.0) == LongRequest
    ensures Classify(false, 1500.0) == AtLeastASecond
    ensures Classify(false, 500.0) == Normal
  {
  }

  /** The words a message starts with. */
  function Label(o: Outcome): string {
    match o
    case Failure => "FAILURE"
    case LongRequest => "Long Request"
    case AtLeastASecond => "At least a second"
    case Normal => "Request"
  }

  /** A log record: its severity and its message. */
  datatype Record = Record(severity: Severity, message: string)

  /** The record log_request writes. `elapsed` and `start` are the response time and start time
      as Python formats them, `error` the exception's text. */
  function LogRecord(requestType: string, name: string, raised: bool, responseTime: real,
                     elapsed: string, error: string, start: string, url: string): (r: Record)
    ensures r.severity == SeverityOf(Classify(raised, responseTime))
    ensures r.severity == Error <==> raised
    ensures StartsWith(r.message, Label(Classify(raised, responseTime)) + ": ")
  {
    match Classify(raised, responseTime)
    case Failure =>
      Record(Error, "FAILURE: " + requestType + " " + name + " " + elapsed + " " + error + " at " + start + " for " + url)
    case LongRequest =>
      Record(Warning, "Long Request: " + name + " took " + elapsed + " for " + url + " at " + start)
    case AtLeastASecond =>
      Record(Warning, "At least a second: " + name + " took " + elapsed + " for " + url + " at " + start)
    case Normal =>
      Record(Info, "Request: " + requestType + " " + name + " " + elapsed + " for " + url + ".")
  }
}
