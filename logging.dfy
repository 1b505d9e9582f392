/** utils/logging.go: the levelled logger. A line is assembled in the logger's buffer and then
    written to the standard-output writer, or to the error writer for ERROR and CRITICAL. */
module Logging {
  import opened Wrappers
  import opened Strings

  const InfoLevel := "INFO"
  const WarnLevel := "WARN"
  const DebugLevel := "DEBUG"
  const ErrorLevel := "ERROR"
  const CriticalLevel := "CRITICAL"

  const ColorRed := "\U{1B}[0;31m"
  const ColorOrange := "\U{1B}[0;33m"
  const ColorBlue := "\U{1B}[0;34m"
  const ColorPurple := "\U{1B}[0;35m"
  const ColorCyan := "\U{1B}[0;36m"
  const ResetColor := "\U{1B}[0m"

  /** An io.Writer, by identity. */
  datatype Writer = Stdout | Stderr | Sink(id: nat)

  /** One call of a writer's Write. */
  datatype Write = Write(writer: Writer, data: string)

  /** The wall-clock reading a timestamp is made from. */
  datatype Clock = Clock(year: int, month: int, day: int, hour: int, minute: int, second: int)

  /** getColor: the colour code of a level; CRITICAL and unknown levels are blue. */
  function GetColor(lv: string): (c: string)
    ensures lv == InfoLevel ==> c == ColorCyan
    ensures lv == WarnLevel ==> c == ColorOrange
    ensures lv == DebugLevel ==> c == ColorPurple
    ensures lv == ErrorLevel ==> c == ColorRed
    ensures lv !in {InfoLevel, WarnLevel, DebugLevel, ErrorLevel} ==> c == ColorBlue
  {
    if lv == InfoLevel then ColorCyan
    else if lv == WarnLevel then ColorOrange
    else if lv == DebugLevel then ColorPurple
    else if lv == ErrorLevel then ColorRed
    else ColorBlue
  }

  /** setTimestamp: " day/month/year hour:minute:second", numbers in decimal without padding. */
  function Timestamp(now: Clock): string {
    " " + IntToString(now.day) + "/" + IntToString(now.month) + "/" + IntToString(now.year) + " " +
    IntToString(now.hour) + ":" + IntToString(now.minute) + ":" + IntToString(now.second)
  }

  /** ERROR and CRITICAL lines go to the error writer. */
  predicate IsErrorLevel(lv: string) {
    lv == ErrorLevel || lv == CriticalLevel
  }

  /** The line Output writes for a message: colour code, "[name - level", timestamp, "] ",
      the message, a newline, reset code; the colour codes and the timestamp only when enabled. */
  function Line(color: bool, name: string, lv: string, stamp: Option<string>, data: string): string {
    (if color then GetColor(lv) else "") + "[" + name + " - " + lv +
    (if stamp.Some? then stamp.value else "") + "] " + data + "\n" + (if color then ResetColor else "")
  }

  /** The colour code and the reset code stand at the two ends of a line together or not at all;
      without colour the line runs from '[' to the newline. */
  lemma LineEnds(color: bool, name: string, lv: string, stamp: Option<string>, data: string)
    ensures var l := Line(color, name, lv, stamp, data);
      if color then HasPrefix(l, GetColor(lv)) && |l| >= |ResetColor| && l[|l| - |ResetColor|..] == ResetColor
      else l[0] == '[' && l[|l| - 1] == '\n'
  {
    var l := Line(color, name, lv, stamp, data);
    if color {
      var c := GetColor(lv);
      assert l == c + (l[|c|..|l| - |ResetColor|]) + ResetColor;
    }
  }

  /** The message itself is part of the line, so everything logged can be found in the output. */
  lemma LineHoldsMessage(color: bool, name: string, lv: string, stamp: Option<string>, data: string)
    ensures Contains(Line(color, name, lv, stamp, data), data)
  {
    var head := (if color then GetColor(lv) else "") + "[" + name + " - " + lv + (if stamp.Some? then stamp.value else "") + "] ";
    var l := Line(color, name, lv, stamp, data);
    assert l == head + data + ("\n" + (if color then ResetColor else ""));
    assert OccursAt(l, data, |head|) by {
      assert l[|head|..|head| + |data|] == data;
    }
    ContainsAt(l, data);
  }

  /** Logger: name, the colour, timestamp and reporting flags, the line buffer and the two
      writers. `written` records every Write made through the writers, in order. */
  class Logger {
    var name: string
    var color: bool
    var timestamp: bool
    var reportErr: bool
    var buf: string
    var outWriter: Writer
    var errWriter: Writer
    var written: seq<Write>

    /** NewLogger: colour and timestamps on and reporting off, except in a deployment, where
        colour and timestamps are off and reporting is on. */
    constructor (name: string, deployment: bool)
      ensures this.name == name && buf == "" && outWriter == Stdout && errWriter == Stderr && written == []
      ensures color == !deployment && timestamp == !deployment && reportErr == deployment
    {
      this.name := name;
      color := true;
      timestamp := true;
      reportErr := false;
      buf := "";
      outWriter := Stdout;
      errWriter := Stderr;
      written := [];
      new;
      if deployment {
        var _ := WithoutColor();
        var _ := WithoutTimestamp();
        var _ := WithReport();
      }
    }

    /** SetWriter: both writers become w. */
    method SetWriter(w: Writer)
      modifies this
      ensures outWriter == w && errWriter == w
      ensures name == old(name) && color == old(color) && timestamp == old(timestamp) && reportErr == old(reportErr)
      ensures buf == old(buf) && written == old(written)
    {
      outWriter := w;
      errWriter := w;
    }

    method WithColor() returns (l: Logger)
      modifies this
      ensures l == this && color
      ensures name == old(name) && timestamp == old(timestamp) && reportErr == old(reportErr)
      ensures buf == old(buf) && outWriter == old(outWriter) && errWriter == old(errWriter) && written == old(written)
    {
      color := true;
      l := this;
    }

    method WithoutColor() returns (l: Logger)
      modifies this
      ensures l == this && !color
      ensures name == old(name) && timestamp == old(timestamp) && reportErr == old(reportErr)
      ensures buf == old(buf) && outWriter == old(outWriter) && errWriter == old(errWriter) && written == old(written)
    {
      color := false;
      l := this;
    }

    method WithoutTimestamp() returns (l: Logger)
      modifies this
      ensures l == this && !timestamp
      ensures name == old(name) && color == old(color) && reportErr == old(reportErr)
      ensures buf == old(buf) && outWriter == old(outWriter) && errWriter == old(errWriter) && written == old(written)
    {
      timestamp := false;
      l := this;
    }

    method WithReport() returns (l: Logger)
      modifies this
      ensures l == this && reportErr
      ensures name == old(name) && color == old(color) && timestamp == old(timestamp)
      ensures buf == old(buf) && outWriter == old(outWriter) && errWriter == old(errWriter) && written == old(written)
    {
      reportErr := true;
      l := this;
    }

    /** Output: the buffer is reset and then holds exactly the current line, which is written
        once, to the error writer for ERROR and CRITICAL and to the output writer otherwise.
        `data` is the formatted message, `now` the clock reading, and `writeErr` what the
        writer's Write returns. */
    method Output(lv: string, data: string, now: Clock, writeErr: Option<string>) returns (err: Option<string>)
      modifies this
      ensures buf == Line(color, name, lv, if timestamp then Some(Timestamp(now)) else None, data)
      ensures written == old(written) + [Write(if IsErrorLevel(lv) then errWriter else outWriter, buf)]
      ensures err == writeErr
      ensures name == old(name) && color == old(color) && timestamp == old(timestamp) && reportErr == old(reportErr)
      ensures outWriter == old(outWriter) && errWriter == old(errWriter)
    {
      ghost var c := if color then GetColor(lv) else "";
      ghost var ts := if timestamp then Timestamp(now) else "";
      buf := "";
      if color {
        buf := buf + GetColor(lv);
      }
      assert buf == c;
      buf := buf + "[" + name + " - " + lv;
      if timestamp {
        buf := buf + Timestamp(now);
      }
      assert buf == c + "[" + name + " - " + lv + ts;
      buf := buf + "] ";
      buf := buf + data;
      buf := buf + "\n";
      if color {
        buf := buf + ResetColor;
      }
      assert buf == c + "[" + name + " - " + lv + ts + "] " + data + "\n" + (if color then ResetColor else "");
      var writer := outWriter;
      if lv == ErrorLevel || lv == CriticalLevel {
        writer := errWriter;
      }
      written := written + [Write(writer, buf)];
      err := writeErr;
    }
  }
}
