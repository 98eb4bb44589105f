/** The logging side of the alarm service: the logger that collects records
    and the adapter `MyLogger` that turns writes to the process's standard
    output and error streams into log records. */
module Logging {

  /** Numeric severities of the logging library that the service uses. */
  const INFO: int := 20
  const ERROR: int := 40

  /** One log record: its severity and its message text.  The timestamp that
      the file handler adds when it formats the record is not modelled. */
  datatype Record = Record(level: int, msg: string)

  /** The characters that `rstrip()` removes: space, tab, line feed, carriage
      return, vertical tab and form feed (the ASCII whitespace set). */
  predicate IsWhitespace(c: char)
  {
    c == ' ' || c == '\t' || c == '\n' || c == '\r' || c == '\U{B}' || c == '\U{C}'
  }

  /** A message with no character other than whitespace (the empty message included). */
  predicate Blank(s: string)
  {
    forall i :: 0 <= i < |s| ==> IsWhitespace(s[i])
  }

  /** `s.rstrip()`: the longest prefix of `s` that does not end in whitespace.
      The three ensures clauses determine the result (see RStripUnique). */
  function RStrip(s: string): (r: string)
    ensures r <= s
    ensures r == [] || !IsWhitespace(r[|r| - 1])
    ensures forall i :: |r| <= i < |s| ==> IsWhitespace(s[i])
  {
    if s != [] && IsWhitespace(s[|s| - 1]) then RStrip(s[..|s| - 1]) else s
  }

  /** Any prefix of `s` that does not end in whitespace and leaves only
      whitespace behind it is `RStrip(s)`. */
  lemma RStripUnique(s: string, t: string)
    requires t <= s
    requires t == [] || !IsWhitespace(t[|t| - 1])
    requires forall i :: |t| <= i < |s| ==> IsWhitespace(s[i])
    ensures t == RStrip(s)
  {
  }

  /** Stripping an already stripped text changes nothing. */
  lemma RStripIdempotent(s: string)
    ensures RStrip(RStrip(s)) == RStrip(s)
  {
  }

  /** `s.rstrip() != ""` holds exactly when `s` has a non-whitespace character. */
  lemma RStripEmptyIffBlank(s: string)
    ensures RStrip(s) == [] <==> Blank(s)
  {
  }

  /** The example of a `print` statement's text: "x\n" strips to "x". */
  lemma RStripExample()
    ensures RStrip("x\n") == "x"
  {
  }

  /** What one `write(message)` forwards to the logger at severity `level`:
      nothing for a blank message, otherwise one record with the stripped text. */
  function Forwarded(level: int, message: string): (r: seq<Record>)
    ensures |r| <= 1
    ensures r == [] <==> Blank(message)
    ensures forall k :: 0 <= k < |r| ==> r[k].level == level
    ensures forall k :: 0 <= k < |r| ==>
              r[k].msg != [] && !IsWhitespace(r[k].msg[|r[k].msg| - 1]) && r[k].msg <= message
  {
    RStripEmptyIffBlank(message);
    var stripped := RStrip(message);
    if stripped != "" then [Record(level, stripped)] else []
  }

  /** A forwarded record's text is the message with its trailing whitespace,
      and only that, removed. */
  lemma ForwardedText(level: int, message: string)
    requires !Blank(message)
    ensures |Forwarded(level, message)| == 1
    ensures var t := Forwarded(level, message)[0].msg;
              forall i :: |t| <= i < |message| ==> IsWhitespace(message[i])
  {
  }

  /** Writing a forwarded record's text again forwards the very same record. */
  lemma ForwardedIsStable(level: int, message: string)
    ensures forall k :: 0 <= k < |Forwarded(level, message)| ==>
              Forwarded(level, Forwarded(level, message)[k].msg) == [Forwarded(level, message)[k]]
  {
  }

  /** A `print "x"` reaches the stream as the write "x" and then the write
      "\n"; only the first produces a record. */
  lemma PrintNewlineSuppressed(level: int)
    ensures Forwarded(level, "x") + Forwarded(level, "\n") == [Record(level, "x")]
  {
  }

  /** The named logger that all records go to.  Its handler, formatter and
      rotation policy are not modelled: every record it is given is kept. */
  class Logger {
    var records: seq<Record>

    constructor ()
      ensures records == []
    {
      records := [];
    }

    /** `logger.log(level, msg)`. */
    method Log(level: int, msg: string)
      modifies this
      ensures records == old(records) + [Record(level, msg)]
    {
      records := records + [Record(level, msg)];
    }

    /** `logger.info(msg)`. */
    method Info(msg: string)
      modifies this
      ensures records == old(records) + [Record(INFO, msg)]
    {
      Log(INFO, msg);
    }
  }

  /** The stream adapter that replaces `sys.stdout` and `sys.stderr`.  Its two
      fields are set once by the constructor and never reassigned. */
  class MyLogger {
    const logger: Logger
    const level: int

    constructor (logger: Logger, level: int)
      ensures this.logger == logger && this.level == level
    {
      this.logger := logger;
      this.level := level;
    }

    /** `write(message)`: appends at most one record to the shared logger,
        at this adapter's level, and leaves the records already there alone. */
    method Write(message: string)
      modifies logger
      ensures logger.records == old(logger.records) + Forwarded(level, message)
    {
      var stripped := RStrip(message);
      if stripped != "" {
        logger.Log(level, stripped);
      }
    }
  }

  /** The start-up code that builds the two adapters over one logger:
      standard output at INFO, standard error at ERROR. */
  method RedirectStreams(logger: Logger) returns (stdout: MyLogger, stderr: MyLogger)
    ensures fresh(stdout) && fresh(stderr)
    ensures stdout.logger == logger && stdout.level == INFO
    ensures stderr.logger == logger && stderr.level == ERROR
  {
    stdout := new MyLogger(logger, INFO);
    stderr := new MyLogger(logger, ERROR);
  }
}
