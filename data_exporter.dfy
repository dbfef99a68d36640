/** The CSV export of a session: a header row and one row per frame with the frame
    number, its time and the four channels, under a file name made of the model name
    and a timestamp. Writing the file is outside the model. */
module Exporter {
  import opened Unity
  import opened Text
  import opened Session
  import opened Generators

  const Header: string := "Frame,Time,Accuracy,Velocity,Fatigue,Confidence"

  /** The file an export produces: its name and its text. */
  datatype ExportFile = ExportFile(name: string, contents: string)

  /** The six fields of frame i: the frame number, the time i/30 with three decimals
      and the accuracy, velocity, fatigue and confidence samples with two. */
  function Fields(i: nat, accuracy: real, velocity: real, fatigue: real, confidence: real): (f: seq<string>)
    ensures |f| == 6 && f[0] == NatToString(i)
    ensures forall k :: 0 <= k < 6 ==> NumberChars(f[k])
  {
    [NatToString(i)] + Cells([i as real / 30.0, accuracy, velocity, fatigue, confidence], ColumnDecimals)
  }

  /** Decimals of the time, accuracy, velocity, fatigue and confidence columns. */
  const ColumnDecimals: seq<nat> := [3, 2, 2, 2, 2]

  /** Each value formatted with its column's number of decimals. */
  function Cells(values: seq<real>, decimals: seq<nat>): (cs: seq<string>)
    requires |decimals| == |values|
    ensures |cs| == |values| && forall k :: 0 <= k < |cs| ==> NumberChars(cs[k])
  {
    seq(|values|, k requires 0 <= k < |values| => FormatFixed(values[k], decimals[k]))
  }

  /** The channels cover the first n frames. */
  predicate Covers(c: Channels, n: int)
  {
    0 <= n && n <= |c.accuracy| && n <= |c.velocity| && n <= |c.fatigue| && n <= |c.confidence|
  }

  /** The data row of frame i of a session, without its line terminator. */
  function Line(c: Channels, i: nat): string
    requires Covers(c, i + 1)
  {
    Join(Fields(i, c.accuracy[i], c.velocity[i], c.fatigue[i], c.confidence[i]), ',')
  }

  /** The data rows of the first n frames. */
  function Lines(c: Channels, n: nat): (ls: seq<string>)
    requires Covers(c, n)
    ensures |ls| == n
  {
    seq(n, i requires 0 <= i < n => Line(c, i))
  }

  /** The exported text: the header line, then each data row followed by '\n'. The
      header is ended by the platform's `newline`. */
  function Csv(c: Channels, n: nat, newline: string): (s: string)
    requires ChannelsOfLength(c, n)
    ensures |s| >= |Header| + |newline| && s[..|Header|] == Header
  {
    var s := Header + newline + Terminated(Lines(c, n), '\n');
    assert s[..|Header|] == Header;
    s
  }

  /** The file name: "Session_", the model name with every space turned into '_',
      '_', the timestamp and ".csv". */
  function FileName(modelName: string, timestamp: string): (r: string)
    ensures |r| == |modelName| + |timestamp| + 13
    ensures r[..8] == "Session_" && r[|r| - 4..] == ".csv"
    ensures r[8 + |modelName|] == '_' && r[9 + |modelName|..|r| - 4] == timestamp
    ensures ' ' !in r[8..8 + |modelName|]
    ensures forall k :: 0 <= k < |modelName| && modelName[k] != ' ' ==> r[8 + k] == modelName[k]
  {
    var key := ReplaceChar(modelName, ' ', '_');
    var r := "Session_" + key + "_" + timestamp + ".csv";
    assert r[8..8 + |modelName|] == key;
    r
  }

  /** `DateTime.ToString("yyyyMMdd_HHmmss")` for a date and time of day. */
  function TimestampText(year: nat, month: nat, day: nat, hour: nat, minute: nat, second: nat): (r: string)
    requires 1 <= year <= 9999 && 1 <= month <= 12 && 1 <= day <= 31
    requires hour < 24 && minute < 60 && second < 60
    ensures |r| == 15 && r[8] == '_' && AllDigits(r[..8]) && AllDigits(r[9..])
    ensures ParseNat(r[..4]) == year && ParseNat(r[4..6]) == month && ParseNat(r[6..8]) == day
    ensures ParseNat(r[9..11]) == hour && ParseNat(r[11..13]) == minute && ParseNat(r[13..]) == second
  {
    var y := Padded(year, 4);
    var mo := Padded(month, 2);
    var d := Padded(day, 2);
    var h := Padded(hour, 2);
    var mi := Padded(minute, 2);
    var s := Padded(second, 2);
    TimestampLayout(y, mo, d, h, mi, s);
    y + mo + d + "_" + h + mi + s
  }

  /** Where the six digit fields sit in "yyyyMMdd_HHmmss". */
  lemma TimestampLayout(y: string, mo: string, d: string, h: string, mi: string, s: string)
    requires |y| == 4 && |mo| == 2 && |d| == 2 && |h| == 2 && |mi| == 2 && |s| == 2
    requires AllDigits(y) && AllDigits(mo) && AllDigits(d) && AllDigits(h) && AllDigits(mi) && AllDigits(s)
    ensures var r := y + mo + d + "_" + h + mi + s;
      |r| == 15 && r[8] == '_' && AllDigits(r[..8]) && AllDigits(r[9..])
      && r[..4] == y && r[4..6] == mo && r[6..8] == d && r[9..11] == h && r[11..13] == mi && r[13..] == s
  {
    var r := y + mo + d + "_" + h + mi + s;
    assert r[..8] == y + mo + d && r[9..] == h + mi + s;
  }

  /** `ExportSession`: nothing for a null session; otherwise the file holding the
      header and one row per frame, under the session's file name. */
  method ExportSession(session: SessionData?, newline: string, timestamp: string)
    returns (file: Option<ExportFile>)
    requires session != null ==> session.Valid()
    ensures session == null ==> file == None
    ensures session != null ==>
      file == Some(ExportFile(FileName(session.modelName, timestamp),
                              Csv(Snapshot(session), session.totalFrames, newline)))
  {
    if session == null {
      return None;
    }
    var c := Snapshot(session);
    var text := Header + newline;
    var i := 0;
    while i < session.totalFrames
      invariant 0 <= i <= session.totalFrames
      invariant text == Header + newline + Terminated(Lines(c, i), '\n')
    {
      var row := Line(c, i);
      AppendRow(c, i, newline, text, row);
      text := text + row + ['\n'];
      i := i + 1;
    }
    var name := FileName(session.modelName, timestamp);
    file := Some(ExportFile(name, text));
  }

  /** One more row extends the exported text by that row and its terminator. */
  lemma AppendRow(c: Channels, i: nat, newline: string, text: string, row: string)
    requires Covers(c, i + 1)
    requires text == Header + newline + Terminated(Lines(c, i), '\n') && row == Line(c, i)
    ensures text + row + ['\n'] == Header + newline + Terminated(Lines(c, i + 1), '\n')
  {
    var before, after := Lines(c, i), Lines(c, i + 1);
    assert |after| == |before + [row]|;
    forall k | 0 <= k < i + 1
      ensures after[k] == (before + [row])[k]
    {
    }
    assert after == before + [row];
    TerminatedAppend(Lines(c, i), row, '\n');
  }

  /** Reading the export back: after the header line the text splits at '\n' into
      exactly `totalFrames` rows and an empty tail, and row i splits at ',' into the
      six fields of frame i, the first of which reads back as i. */
  lemma CsvDecodes(c: Channels, n: nat, newline: string)
    requires ChannelsOfLength(c, n)
    ensures var body := Csv(c, n, newline)[|Header| + |newline|..];
      Split(body, '\n') == Lines(c, n) + [[]]
      && CountChar(body, '\n') == n
      && forall i :: 0 <= i < n ==>
           Split(Lines(c, n)[i], ',') == Fields(i, c.accuracy[i], c.velocity[i], c.fatigue[i], c.confidence[i])
           && ParseNat(Split(Lines(c, n)[i], ',')[0]) == i
  {
    var ls := Lines(c, n);
    forall i | 0 <= i < n
      ensures '\n' !in ls[i]
      ensures Split(ls[i], ',') == Fields(i, c.accuracy[i], c.velocity[i], c.fatigue[i], c.confidence[i])
      ensures ParseNat(Split(ls[i], ',')[0]) == i
    {
      var f := Fields(i, c.accuracy[i], c.velocity[i], c.fatigue[i], c.confidence[i]);
      forall k | 0 <= k < 6
        ensures ',' !in f[k] && '\n' !in f[k]
      {
        NumberCharsHaveNoSeparator(f[k]);
      }
      SplitJoin(f, ',');
      JoinAvoids(f, ',', '\n');
      ParseNatToString(i);
    }
    var body := Csv(c, n, newline)[|Header| + |newline|..];
    assert body == Terminated(ls, '\n');
    SplitTerminated(ls, '\n');
  }

  /** Joining parts that avoid a character with a different separator avoids it. */
  lemma {:induction false} JoinAvoids(parts: seq<string>, sep: char, c: char)
    requires |parts| >= 1 && sep != c
    requires forall i :: 0 <= i < |parts| ==> c !in parts[i]
    ensures c !in Join(parts, sep)
    decreases |parts|
  {
    if |parts| > 1 {
      JoinAvoids(parts[1..], sep, c);
    }
  }
}
