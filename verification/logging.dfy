/**
  * The logging front end: level names and their parsing, the zerolog
  * threshold each level selects, the label the console writer prints, and the
  * `ConnectWriter` that forwards formatted log text to a display when one is
  * attached.
  */
module Logging {
  import opened Wrappers
  import opened Bytes

  /** Go's `type LogLevel string`: any string, of which four are named. */
  type LogLevel = string

  const DEBUG: LogLevel := "DEBUG"
  const INFO: LogLevel := "INFO"
  const WARN: LogLevel := "WARN"
  const ERROR: LogLevel := "ERROR"

  predicate IsNamedLevel(l: LogLevel) {
    l == DEBUG || l == INFO || l == WARN || l == ERROR
  }

  /** `GetLogLevelFromString`: the level of that exact name, DEBUG for every other string. */
  function GetLogLevelFromString(str: string): (l: LogLevel)
    ensures IsNamedLevel(l)
    ensures IsNamedLevel(str) ==> l == str
    ensures !IsNamedLevel(str) ==> l == DEBUG
  {
    if str == "DEBUG" then DEBUG
    else if str == "INFO" then INFO
    else if str == "WARN" then WARN
    else if str == "ERROR" then ERROR
    else DEBUG
  }

  /** Reading a level back from its own name gives the level: the name is the level. */
  lemma LevelNameRoundTrip(l: LogLevel)
    requires IsNamedLevel(l)
    ensures GetLogLevelFromString(l) == l
  {
  }

  /** Parsing is a projection: parsing a parsed level changes nothing. */
  lemma ParseIdempotent(str: string)
    ensures GetLogLevelFromString(GetLogLevelFromString(str)) == GetLogLevelFromString(str)
  {
  }

  /** Matching is exact: a lower-case or empty name selects DEBUG. */
  lemma ParseIsCaseSensitive()
    ensures GetLogLevelFromString("info") == DEBUG
    ensures GetLogLevelFromString("error") == DEBUG
    ensures GetLogLevelFromString("") == DEBUG
  {
  }

  /** zerolog's numeric levels. */
  const DebugLevel: int := 0
  const InfoLevel: int := 1
  const WarnLevel: int := 2
  const ErrorLevel: int := 3

  /** The zerolog level `SetLevel` selects for a level; none for an unnamed one. */
  function Threshold(l: LogLevel): (t: Option<int>)
    ensures t.Some? <==> IsNamedLevel(l)
    ensures t.Some? ==> DebugLevel <= t.value <= ErrorLevel
  {
    if l == DEBUG then Some(DebugLevel)
    else if l == INFO then Some(InfoLevel)
    else if l == WARN then Some(WarnLevel)
    else if l == ERROR then Some(ErrorLevel)
    else None
  }

  /** The four levels select strictly increasing thresholds, in the order DEBUG, INFO, WARN, ERROR. */
  lemma ThresholdsIncrease()
    ensures Threshold(DEBUG).value < Threshold(INFO).value < Threshold(WARN).value < Threshold(ERROR).value
  {
  }

  /** Distinct named levels select distinct thresholds. */
  lemma ThresholdInjective(a: LogLevel, b: LogLevel)
    requires IsNamedLevel(a) && IsNamedLevel(b) && a != b
    ensures Threshold(a) != Threshold(b)
  {
  }

  /** Every string from the configuration selects some threshold once parsed. */
  lemma ParsedLevelHasThreshold(str: string)
    ensures Threshold(GetLogLevelFromString(str)).Some?
  {
  }

  /** One log line as the core hands it to the logger. */
  datatype LogEntry = LogEntry(level: LogLevel, msg: string)

  /** Whether zerolog writes an entry at `level` under the global `threshold`. */
  predicate Enabled(level: LogLevel, threshold: int) {
    Threshold(level).Some? && Threshold(level).value >= threshold
  }

  /** The entries zerolog lets through under `threshold`, in order. */
  function Passing(es: seq<LogEntry>, threshold: int): (r: seq<LogEntry>)
    ensures |r| <= |es|
    ensures forall e :: e in r ==> e in es && Enabled(e.level, threshold)
    ensures forall e :: e in es && Enabled(e.level, threshold) ==> e in r
  {
    if es == [] then []
    else (if Enabled(es[0].level, threshold) then [es[0]] else []) + Passing(es[1..], threshold)
  }

  /** ASCII upper case of one character; other characters are kept. */
  function UpperChar(c: char): (u: char)
    ensures !('a' <= u <= 'z')
    ensures !('a' <= c <= 'z') ==> u == c
  {
    if 'a' <= c <= 'z' then (c as int - 'a' as int + 'A' as int) as char else c
  }

  /** `strings.ToUpper`, on ASCII letters. */
  function ToUpper(s: string): (r: string)
    ensures |r| == |s|
    ensures forall i :: 0 <= i < |s| ==> r[i] == UpperChar(s[i])
  {
    if s == [] then [] else [UpperChar(s[0])] + ToUpper(s[1..])
  }

  /** Upper-casing distributes over concatenation. */
  lemma ToUpperAppend(a: string, b: string)
    ensures ToUpper(a + b) == ToUpper(a) + ToUpper(b)
  {
  }

  /** Upper-casing twice is upper-casing once. */
  lemma ToUpperIdempotent(s: string)
    ensures ToUpper(ToUpper(s)) == ToUpper(s)
  {
  }

  /**
    * The `FormatLevel` closure of `createLogWriter`: the level field printed
    * as "[" + name + "]" in upper case.  The brackets are unaffected by the
    * upper-casing, so the label is the bracketed upper-case name.
    */
  function FormatLevel(name: string): (tag: string)
    ensures tag == "[" + ToUpper(name) + "]"
    ensures forall i :: 0 <= i < |tag| ==> !('a' <= tag[i] <= 'z')
  {
    ToUpperAppend("[" + name, "]");
    ToUpperAppend("[", name);
    ToUpper("[" + name + "]")
  }

  /** zerolog's name of each level in the event's level field. */
  function ZerologName(l: LogLevel): (name: string)
    requires IsNamedLevel(l)
    ensures ToUpper(name) == l
  {
    if l == DEBUG then "debug"
    else if l == INFO then "info"
    else if l == WARN then "warn"
    else "error"
  }

  /** The console label of every named level is that level's own name in brackets. */
  lemma LevelLabel(l: LogLevel)
    requires IsNamedLevel(l)
    ensures FormatLevel(ZerologName(l)) == "[" + l + "]"
  {
  }

  /** What a Go writer returns: the byte count and the error. */
  datatype WriteResult = WriteResult(n: int, err: Option<string>)

  /** A `func([]byte) (int, error)` the display attaches, such as a text view's `Write`. */
  type Writer = seq<byte> -> WriteResult

  /** A write handed to an attached writer: which attachment received it, and the bytes. */
  datatype Delivery = Delivery(attachment: nat, bytes: seq<byte>)

  /**
    * `ConnectWriter`: the console side of the logger.  `attachments` counts
    * how many times a target was set; `delivered` records the writes received
    * by every target attached so far, each under its attachment number.
    */
  class ConnectWriter {
    var target: Option<Writer>
    ghost var attachments: nat
    ghost var delivered: seq<Delivery>

    ghost predicate Valid()
      reads this
    {
      forall d :: d in delivered ==> d.attachment <= attachments
    }

    constructor ()
      ensures Valid()
      ensures target.None? && attachments == 0 && delivered == []
    {
      target := None;
      attachments := 0;
      delivered := [];
    }

    /**
      * `Write`: with a target, the bytes go to it unchanged and its answer is
      * returned; without one, nothing is written and `(0, nil)` is returned.
      */
    method Write(p: seq<byte>) returns (n: int, err: Option<string>)
      requires Valid()
      modifies this`delivered
      ensures Valid()
      ensures target.None? ==> n == 0 && err == None && delivered == old(delivered)
      ensures target.Some? ==> WriteResult(n, err) == target.value(p)
      ensures target.Some? ==> delivered == old(delivered) + [Delivery(attachments, p)]
    {
      match target
      case None =>
        n, err := 0, None;
      case Some(w) =>
        var res := w(p);
        n, err := res.n, res.err;
        delivered := delivered + [Delivery(attachments, p)];
    }
  }

  /**
    * The logger.  `threshold` stands for zerolog's global level;
    * `requested` records every call of Debug, Info, Warn and Error and
    * `written` those the threshold let through.
    */
  class Logger {
    var threshold: int
    const connectWriter: ConnectWriter
    ghost var requested: seq<LogEntry>
    ghost var written: seq<LogEntry>

    ghost predicate Valid()
      reads this, connectWriter
    {
      connectWriter.Valid()
    }

    /** `requested` and `written` grew by `es` and by those of `es` that pass. */
    ghost predicate Appended(oldRequested: seq<LogEntry>, oldWritten: seq<LogEntry>, es: seq<LogEntry>)
      reads this
    {
      requested == oldRequested + es && written == oldWritten + Passing(es, threshold)
    }

    /** A fresh logger: zerolog's default global level is debug, and no display is attached. */
    constructor ()
      ensures Valid() && fresh(connectWriter)
      ensures threshold == DebugLevel && connectWriter.target.None?
      ensures connectWriter.attachments == 0 && connectWriter.delivered == []
      ensures requested == [] && written == []
    {
      threshold := DebugLevel;
      connectWriter := new ConnectWriter();
      requested := [];
      written := [];
    }

    /** `Debug`, `Info`, `Warn`, `Error`: one entry at that level. */
    method Log(level: LogLevel, msg: string)
      requires IsNamedLevel(level)
      modifies this`requested, this`written
      ensures Appended(old(requested), old(written), [LogEntry(level, msg)])
    {
      requested := requested + [LogEntry(level, msg)];
      written := written + Passing([LogEntry(level, msg)], threshold);
    }

    /**
      * `SetLevel`: a named level selects its threshold; any other value leaves
      * the threshold as it was.  Nothing else changes.
      */
    method SetLevel(level: LogLevel)
      modifies this`threshold
      ensures IsNamedLevel(level) ==> threshold == Threshold(level).value
      ensures !IsNamedLevel(level) ==> threshold == old(threshold)
    {
      match Threshold(level)
      case Some(t) => threshold := t;
      case None =>
    }

    /** `SetExternalWriter`: later writes go to `w` (or nowhere when it is nil). */
    method SetExternalWriter(w: Option<Writer>)
      requires Valid()
      modifies connectWriter`target, connectWriter`attachments
      ensures Valid()
      ensures connectWriter.target == w
      ensures connectWriter.attachments == old(connectWriter.attachments) + 1
      ensures connectWriter.delivered == old(connectWriter.delivered)
    {
      connectWriter.target := w;
      connectWriter.attachments := connectWriter.attachments + 1;
    }
  }

  /**
    * After `SetExternalWriter(w)`, a write is answered by `w` and recorded
    * under the new attachment, never under an earlier one; every write
    * delivered before carries a smaller attachment number.
    */
  method WriteAfterAttach(l: Logger, w: Writer, p: seq<byte>) returns (n: int, err: Option<string>)
    requires l.Valid()
    modifies l.connectWriter
    ensures l.Valid()
    ensures l.connectWriter.target == Some(w)
    ensures WriteResult(n, err) == w(p)
    ensures l.connectWriter.attachments == old(l.connectWriter.attachments) + 1
    ensures l.connectWriter.delivered == old(l.connectWriter.delivered) + [Delivery(l.connectWriter.attachments, p)]
    ensures forall d :: d in old(l.connectWriter.delivered) ==> d.attachment < l.connectWriter.attachments
  {
    l.SetExternalWriter(Some(w));
    n, err := l.connectWriter.Write(p);
  }
}
