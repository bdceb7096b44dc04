/** Reading the `\G` output of `show master status` and `show slave status`,
    and the SQL statements and command lines the MariaDB module sends to the
    database container.  Each expression `Key:\s*(\S+)` of the source is
    `FindToken(line, Key)`: the leftmost occurrence of `Key` that is followed,
    after optional white space, by at least one non-space character; the
    capture is the whole run of non-space characters. */
module StatusParser {
  import opened Wrappers
  import opened Text
  import opened Common

  // ---------------------------------------------------------------------------
  // Field matching

  /** The text after its leading white space. */
  function SkipSpace(s: string): string {
    if |s| > 0 && IsSpace(s[0]) then SkipSpace(s[1..]) else s
  }

  /** The longest prefix without white space. */
  function Token(s: string): string {
    if |s| > 0 && !IsSpace(s[0]) then [s[0]] + Token(s[1..]) else ""
  }

  /** What `(\S+)` captures after an occurrence of the key at `i`. */
  function Capture(line: string, key: string, i: nat): string
    requires i + |key| <= |line|
  {
    Token(SkipSpace(line[i + |key|..]))
  }

  /** The whole expression matches at `i`. */
  predicate MatchesAt(line: string, key: string, i: nat) {
    OccursAt(line, key, i) && Capture(line, key, i) != ""
  }

  /** `i` is the leftmost position where the expression matches. */
  predicate FirstMatch(line: string, key: string, i: nat) {
    MatchesAt(line, key, i) && forall j: nat :: j < i ==> !MatchesAt(line, key, j)
  }

  function FindFrom(line: string, key: string, i: nat): Option<string>
    decreases |line| - i
  {
    if i + |key| > |line| then None
    else if MatchesAt(line, key, i) then Some(Capture(line, key, i))
    else FindFrom(line, key, i + 1)
  }

  lemma {:induction false} FindFromSpec(line: string, key: string, i: nat)
    ensures FindFrom(line, key, i).None? <==> forall j: nat :: i <= j ==> !MatchesAt(line, key, j)
    ensures FindFrom(line, key, i).Some? ==>
              exists j: nat :: i <= j && MatchesAt(line, key, j) && FindFrom(line, key, i).value == Capture(line, key, j) &&
                               forall k: nat :: i <= k < j ==> !MatchesAt(line, key, k)
    decreases |line| - i
  {
    if i + |key| > |line| {
      assert forall j: nat :: i <= j ==> !OccursAt(line, key, j);
    } else if MatchesAt(line, key, i) {
      assert FindFrom(line, key, i) == Some(Capture(line, key, i));
    } else {
      FindFromSpec(line, key, i + 1);
      assert FindFrom(line, key, i) == FindFrom(line, key, i + 1);
      if FindFrom(line, key, i + 1).Some? {
        var j: nat :| i + 1 <= j && MatchesAt(line, key, j) && FindFrom(line, key, i + 1).value == Capture(line, key, j) &&
                      forall k: nat :: i + 1 <= k < j ==> !MatchesAt(line, key, k);
        assert forall k: nat :: i <= k < j ==> !MatchesAt(line, key, k);
      }
    }
  }

  /** `exp.FindStringSubmatch(line)` with `len(items) > 1`, and `items[1]`:
      the capture of the leftmost match, if there is one. */
  function FindToken(line: string, key: string): Option<string> {
    FindFrom(line, key, 0)
  }

  /** `FindToken` finds nothing exactly when the expression matches nowhere,
      and otherwise the capture at the leftmost match. */
  lemma FindTokenSpec(line: string, key: string)
    ensures FindToken(line, key).None? <==> forall j: nat :: !MatchesAt(line, key, j)
    ensures FindToken(line, key).Some? ==>
              exists j: nat :: FirstMatch(line, key, j) && FindToken(line, key).value == Capture(line, key, j)
  {
    FindFromSpec(line, key, 0);
  }

  predicate AllSpace(s: string) {
    forall k :: 0 <= k < |s| ==> IsSpace(s[k])
  }

  /** `n` blanks, the indentation `\G` output right-aligns field names with. */
  function Spaces(n: nat): (r: string)
    ensures |r| == n && AllSpace(r)
  {
    seq(n, _ => ' ')
  }

  predicate NoSpace(s: string) {
    forall k :: 0 <= k < |s| ==> !IsSpace(s[k])
  }

  /** A row `<spaces>Key:<spaces>value` of `\G` output yields the value. */
  lemma {:induction false} FindTokenOfRow(lead: string, key: string, pad: string, v: string)
    requires AllSpace(lead) && AllSpace(pad)
    requires |key| > 0 && !IsSpace(key[0])
    requires |v| > 0 && NoSpace(v)
    ensures FindToken(lead + key + pad + v, key) == Some(v)
  {
    var line := lead + key + pad + v;
    var i := |lead|;
    assert line[i..i + |key|] == key;
    assert line[i + |key|..] == pad + v;
    SkipSpaceOf(pad, v);
    TokenOfNoSpace(v);
    assert MatchesAt(line, key, i);
    forall j: nat | j < i
      ensures !MatchesAt(line, key, j)
    {
      assert line[j] == lead[j];
    }
    FindTokenSpec(line, key);
    var r := FindToken(line, key);
    var j: nat :| FirstMatch(line, key, j) && r.value == Capture(line, key, j);
  }

  lemma {:induction false} SkipSpaceOf(pad: string, v: string)
    requires AllSpace(pad)
    requires |v| > 0 && !IsSpace(v[0])
    ensures SkipSpace(pad + v) == v
    decreases |pad|
  {
    if |pad| > 0 {
      assert (pad + v)[1..] == pad[1..] + v;
      SkipSpaceOf(pad[1..], v);
    } else {
      assert pad + v == v;
    }
  }

  lemma {:induction false} TokenOfNoSpace(v: string)
    requires NoSpace(v)
    ensures Token(v) == v
    decreases |v|
  {
    if |v| > 0 {
      TokenOfNoSpace(v[1..]);
    }
  }

  /** A line missing one of the key's characters never matches it. */
  lemma MissingCharNoMatch(line: string, key: string, k: nat)
    requires k < |key| && key[k] !in line
    ensures FindToken(line, key) == None
  {
    forall j: nat
      ensures !MatchesAt(line, key, j)
    {
      if j + |key| <= |line| {
        assert line[j + k] in line;
      }
    }
    FindTokenSpec(line, key);
  }

  // ---------------------------------------------------------------------------
  // show master status

  const FileKey := "File:"
  const PositionKey := "Position:"

  const ShowMasterStatusCmd := "show master status\\G;"

  /** The variables the scan of the master report keeps. */
  datatype MasterScan = MasterScan(enable: bool, logFile: string, logPos: int64)

  /** One line of the master report: a `File:` row sets the log file and
      enables the status; otherwise a `Position:` row sets the position when
      it parses as a 64-bit integer; other lines change nothing. */
  function MasterStep(acc: MasterScan, line: string): MasterScan {
    match FindToken(line, FileKey)
    case Some(f) => acc.(enable := true, logFile := f)
    case None =>
      match FindToken(line, PositionKey)
      case None => acc
      case Some(p) =>
        match ParseInt(p, Bits64)
        case Some(v) => acc.(logPos := v)
        case None => acc
  }

  /** The scan over the lines read so far. */
  function ScanMaster(lines: seq<string>): MasterScan {
    if |lines| == 0 then MasterScan(false, "", 0)
    else MasterStep(ScanMaster(lines[..|lines| - 1]), lines[|lines| - 1])
  }

  /** The scanner loop of `showMasterStatus`. */
  method ParseMasterOutput(output: string) returns (s: MasterScan)
    ensures s == ScanMaster(ScanLines(output))
  {
    var lines := ScanLines(output);
    s := MasterScan(false, "", 0);
    var i := 0;
    while i < |lines|
      invariant 0 <= i <= |lines|
      invariant s == ScanMaster(lines[..i])
    {
      assert lines[..i + 1][..i] == lines[..i];
      var f := FindToken(lines[i], FileKey);
      if f.Some? {
        s := s.(enable := true, logFile := f.value);
      } else {
        var p := FindToken(lines[i], PositionKey);
        if p.Some? {
          var v := ParseInt(p.value, Bits64);
          if v.Some? {
            s := s.(logPos := v.value);
          }
        }
      }
      i := i + 1;
    }
    assert lines[..i] == lines;
  }

  /** The record `showMasterStatus` returns: the scan, the service's endpoint
      and the time of the probe. */
  function MasterStatusOf(s: MasterScan, svc: Svc, now: int64): MasterStatus {
    MasterStatus(s.enable, svc.host, svc.port, s.logFile, s.logPos, now)
  }

  /** The status is enabled exactly when some line has a `File:` row. */
  lemma {:induction false} ScanMasterEnable(lines: seq<string>)
    ensures ScanMaster(lines).enable <==> exists k :: 0 <= k < |lines| && FindToken(lines[k], FileKey).Some?
  {
    if |lines| > 0 {
      var init := lines[..|lines| - 1];
      ScanMasterEnable(init);
      if exists k :: 0 <= k < |init| && FindToken(init[k], FileKey).Some? {
        var k :| 0 <= k < |init| && FindToken(init[k], FileKey).Some?;
        assert lines[k] == init[k];
      }
      if exists k :: 0 <= k < |lines| && FindToken(lines[k], FileKey).Some? {
        var k :| 0 <= k < |lines| && FindToken(lines[k], FileKey).Some?;
        if k < |init| {
          assert init[k] == lines[k];
        }
      }
    }
  }

  /** The log file is the token of the last `File:` row. */
  lemma {:induction false} ScanMasterLastFile(lines: seq<string>, k: nat)
    requires k < |lines| && FindToken(lines[k], FileKey).Some?
    requires forall m :: k < m < |lines| ==> FindToken(lines[m], FileKey).None?
    ensures ScanMaster(lines).logFile == FindToken(lines[k], FileKey).value
    decreases |lines|
  {
    if k < |lines| - 1 {
      var init := lines[..|lines| - 1];
      assert init[k] == lines[k];
      assert forall m :: k < m < |init| ==> init[m] == lines[m];
      ScanMasterLastFile(init, k);
    }
  }

  /** What one line does to the position. */
  lemma MasterStepPos(acc: MasterScan, line: string)
    ensures MasterStep(acc, line).logPos == if PosRow(line) then PosValue(line) else acc.logPos
  {
  }

  /** With no line setting a position, the position stays 0. */
  lemma {:induction false} ScanMasterNoPos(lines: seq<string>)
    requires forall m :: 0 <= m < |lines| ==> !PosRow(lines[m])
    ensures ScanMaster(lines).logPos == 0
  {
    if |lines| > 0 {
      var init := lines[..|lines| - 1];
      assert forall m :: 0 <= m < |init| ==> init[m] == lines[m];
      ScanMasterNoPos(init);
      MasterStepPos(ScanMaster(init), lines[|lines| - 1]);
    }
  }

  /** The position is the last `Position:` token (on a line without a
      `File:` row) that parses. */
  lemma {:induction false} ScanMasterLastPos(lines: seq<string>, k: nat)
    requires k < |lines| && PosRow(lines[k])
    requires forall m :: k < m < |lines| ==> !PosRow(lines[m])
    ensures ScanMaster(lines).logPos == PosValue(lines[k])
  {
    var init := lines[..|lines| - 1];
    MasterStepPos(ScanMaster(init), lines[|lines| - 1]);
    if k < |lines| - 1 {
      assert init[k] == lines[k];
      assert forall m :: k < m < |init| ==> init[m] == lines[m];
      ScanMasterLastPos(init, k);
    }
  }

  /** A line that sets the position: no `File:` row, and a `Position:` token
      that parses. */
  predicate PosRow(line: string) {
    FindToken(line, FileKey).None? && FindToken(line, PositionKey).Some? &&
    ParseInt(FindToken(line, PositionKey).value, Bits64).Some?
  }

  function PosValue(line: string): int64
    requires PosRow(line)
  {
    ParseInt(FindToken(line, PositionKey).value, Bits64).value
  }

  /** The two rows of a master report the agent relies on. */
  function MasterReport(logFile: string, logPos: int64): string {
    JoinLines([FileRow(logFile), PositionRow(logPos)])
  }

  function FileRow(logFile: string): string { Spaces(12) + FileKey + " " + logFile }
  function PositionRow(logPos: int64): string { Spaces(8) + PositionKey + " " + FormatInt(logPos) }

  predicate IsFileNameChar(c: char) {
    c == '.' || c == '_' || c == '-' || IsDigit(c) || ('a' <= c <= 'z')
  }

  predicate IsFileName(s: string) {
    |s| > 0 && forall k :: 0 <= k < |s| ==> IsFileNameChar(s[k])
  }

  lemma FileRowToken(logFile: string)
    requires IsFileName(logFile)
    ensures FindToken(FileRow(logFile), FileKey) == Some(logFile)
  {
    FindTokenOfRow(Spaces(12), FileKey, " ", logFile);
  }

  lemma PositionRowToken(logPos: int64)
    ensures FindToken(PositionRow(logPos), FileKey) == None
    ensures FindToken(PositionRow(logPos), PositionKey) == Some(FormatInt(logPos))
  {
    var l := PositionRow(logPos);
    FormatIntChars(logPos);
    assert forall k :: 0 <= k < |l| ==> l[k] != 'F';
    MissingCharNoMatch(l, FileKey, 0);
    FindTokenOfRow(Spaces(8), PositionKey, " ", FormatInt(logPos));
  }

  lemma MasterReportLines(logFile: string, logPos: int64)
    requires IsFileName(logFile)
    ensures ScanLines(MasterReport(logFile, logPos)) == [FileRow(logFile), PositionRow(logPos)]
  {
    var l1 := FileRow(logFile);
    var l2 := PositionRow(logPos);
    FormatIntChars(logPos);
    assert forall k :: 0 <= k < |l1| ==> l1[k] != '\n' && l1[k] != '\r';
    assert forall k :: 0 <= k < |l2| ==> l2[k] != '\n' && l2[k] != '\r';
    assert '\n' !in l1 && '\r' !in l1;
    assert '\n' !in l2 && '\r' !in l2;
    ScanLinesOfJoin([l1, l2]);
  }

  /** Two lines: a `File:` row, then a `Position:` row whose token parses. */
  lemma {:induction false} ScanMasterFilePos(l1: string, l2: string, f: string, p: string, v: int64)
    requires FindToken(l1, FileKey) == Some(f)
    requires FindToken(l2, FileKey) == None && FindToken(l2, PositionKey) == Some(p)
    requires ParseInt(p, Bits64) == Some(v)
    ensures ScanMaster([l1, l2]) == MasterScan(true, f, v)
  {
    assert [l1, l2][..1] == [l1];
    assert [l1][..0] == [];
  }

  /** Reading back a report gives the log file and position it shows. */
  lemma MasterReportRoundTrip(logFile: string, logPos: int64)
    requires IsFileName(logFile)
    ensures ScanMaster(ScanLines(MasterReport(logFile, logPos))) == MasterScan(true, logFile, logPos)
  {
    MasterReportLines(logFile, logPos);
    FileRowToken(logFile);
    PositionRowToken(logPos);
    ParseFormatInt(logPos, Bits64);
    ScanMasterFilePos(FileRow(logFile), PositionRow(logPos), logFile, FormatInt(logPos), logPos);
  }

  // ---------------------------------------------------------------------------
  // show slave status

  const SlaveIOStateKey := "Slave_IO_State:"
  const MasterHostKey := "Master_Host:"
  const MasterPortKey := "Master_Port:"
  const SlaveIORunningKey := "Slave_IO_Running:"
  const SlaveSQLRunningKey := "Slave_SQL_Running:"
  const SecondsBehindKey := "Seconds_Behind_Master:"

  const ShowSlaveStatusCmd := "show slave status\\G;"

  /** The variables the scan of the slave report keeps: the flag and the
      lower-cased tokens, parsed only once the scan is over. */
  datatype SlaveScan = SlaveScan(
    enable: bool, masterHost: string, masterPort: string,
    ioRunning: string, sqlRunning: string, behind: string)

  /** One line of the slave report: the six expressions are tried in turn
      and the first that matches decides; lines matching none are ignored. */
  function SlaveStep(acc: SlaveScan, line: string): SlaveScan {
    if FindToken(line, SlaveIOStateKey).Some? then acc.(enable := true)
    else if FindToken(line, MasterHostKey).Some? then acc.(masterHost := ToLower(FindToken(line, MasterHostKey).value))
    else if FindToken(line, MasterPortKey).Some? then acc.(masterPort := ToLower(FindToken(line, MasterPortKey).value))
    else if FindToken(line, SlaveIORunningKey).Some? then acc.(ioRunning := ToLower(FindToken(line, SlaveIORunningKey).value))
    else if FindToken(line, SlaveSQLRunningKey).Some? then acc.(sqlRunning := ToLower(FindToken(line, SlaveSQLRunningKey).value))
    else if FindToken(line, SecondsBehindKey).Some? then acc.(behind := ToLower(FindToken(line, SecondsBehindKey).value))
    else acc
  }

  const NoSlaveScan := SlaveScan(false, "", "", "", "", "")

  function ScanSlave(lines: seq<string>): SlaveScan {
    if |lines| == 0 then NoSlaveScan
    else SlaveStep(ScanSlave(lines[..|lines| - 1]), lines[|lines| - 1])
  }

  /** The scanner loop of `showSlaveStatus`. */
  method ParseSlaveOutput(output: string) returns (s: SlaveScan)
    ensures s == ScanSlave(ScanLines(output))
  {
    var lines := ScanLines(output);
    s := NoSlaveScan;
    var i := 0;
    while i < |lines|
      invariant 0 <= i <= |lines|
      invariant s == ScanSlave(lines[..i])
    {
      assert lines[..i + 1][..i] == lines[..i];
      var line := lines[i];
      var m := FindToken(line, SlaveIOStateKey);
      if m.Some? {
        s := s.(enable := true);
      } else {
        m := FindToken(line, MasterHostKey);
        if m.Some? {
          s := s.(masterHost := ToLower(m.value));
        } else {
          m := FindToken(line, MasterPortKey);
          if m.Some? {
            s := s.(masterPort := ToLower(m.value));
          } else {
            m := FindToken(line, SlaveIORunningKey);
            if m.Some? {
              s := s.(ioRunning := ToLower(m.value));
            } else {
              m := FindToken(line, SlaveSQLRunningKey);
              if m.Some? {
                s := s.(sqlRunning := ToLower(m.value));
              } else {
                m := FindToken(line, SecondsBehindKey);
                if m.Some? {
                  s := s.(behind := ToLower(m.value));
                }
              }
            }
          }
        }
      }
      i := i + 1;
    }
    assert lines[..i] == lines;
  }

  /** The record `showSlaveStatus` builds from the scan at time `now`. */
  function SlaveStatusOf(s: SlaveScan, now: int64): (r: SlaveStatus)
    ensures r.enable == s.enable && r.timeStamp == now
    ensures !s.enable ==> r == SlaveStatus(false, "", 0, false, 0, now)
    ensures s.enable ==> r.masterHost == s.masterHost
    ensures r.runningOK <==> s.enable && s.ioRunning == "yes" && s.sqlRunning == "yes"
    ensures s.enable && ParseInt(s.behind, Bits32).Some? ==> r.behindSecond == ParseInt(s.behind, Bits32).value
    ensures ParseInt(s.behind, Bits32).None? ==> r.behindSecond == 0
    ensures s.enable && ParseInt(s.masterPort, Bits32).Some? ==> r.masterPort == ParseInt(s.masterPort, Bits32).value
    ensures ParseInt(s.masterPort, Bits32).None? ==> r.masterPort == 0
  {
    if !s.enable then SlaveStatus(false, "", 0, false, 0, now)
    else
      SlaveStatus(true, s.masterHost, ParseIntOrZero(s.masterPort, Bits32),
                  s.ioRunning == s.sqlRunning && s.ioRunning == "yes",
                  ParseIntOrZero(s.behind, Bits32), now)
  }

  /** The slave is enabled exactly when some line has a `Slave_IO_State:`
      row. */
  lemma {:induction false} ScanSlaveEnable(lines: seq<string>)
    ensures ScanSlave(lines).enable <==> exists k :: 0 <= k < |lines| && FindToken(lines[k], SlaveIOStateKey).Some?
  {
    if |lines| > 0 {
      var init := lines[..|lines| - 1];
      ScanSlaveEnable(init);
      if exists k :: 0 <= k < |init| && FindToken(init[k], SlaveIOStateKey).Some? {
        var k :| 0 <= k < |init| && FindToken(init[k], SlaveIOStateKey).Some?;
        assert lines[k] == init[k];
      }
      if exists k :: 0 <= k < |lines| && FindToken(lines[k], SlaveIOStateKey).Some? {
        var k :| 0 <= k < |lines| && FindToken(lines[k], SlaveIOStateKey).Some?;
        if k < |init| {
          assert init[k] == lines[k];
        }
      }
    }
  }

  /** Rows of a slave report, in the order MariaDB prints them. */
  function SlaveReport(state: string, host: string, port: int32, io: bool, sql: bool, behind: int32): string {
    JoinLines(SlaveRows(state, host, port, io, sql, behind))
  }

  function SlaveRows(state: string, host: string, port: int32, io: bool, sql: bool, behind: int32): seq<string> {
    [Row(SlaveIOStateKey, state),
     Row(MasterHostKey, host),
     Row(MasterPortKey, FormatInt(port)),
     Row(SlaveIORunningKey, YesNo(io)),
     Row(SlaveSQLRunningKey, YesNo(sql)),
     Row(SecondsBehindKey, FormatInt(behind))]
  }

  /** A `Key: value` row. */
  function Row(key: string, v: string): string { key + " " + v }

  function YesNo(b: bool): string { if b then "Yes" else "No" }

  predicate IsAddressChar(c: char) { c == '.' || IsDigit(c) }

  predicate IsAddress(s: string) {
    |s| > 0 && forall k :: 0 <= k < |s| ==> IsAddressChar(s[k])
  }

  predicate IsWord(s: string) {
    |s| > 0 && forall k :: 0 <= k < |s| ==> 'a' <= s[k] <= 'z'
  }

  lemma RowToken(key: string, v: string)
    requires |key| > 0 && !IsSpace(key[0])
    requires |v| > 0 && NoSpace(v)
    ensures FindToken(Row(key, v), key) == Some(v)
  {
    FindTokenOfRow("", key, " ", v);
    assert "" + key + " " + v == Row(key, v);
  }

  lemma HostRowTokens(host: string)
    requires IsAddress(host)
    ensures FindToken(Row(MasterHostKey, host), SlaveIOStateKey) == None
    ensures FindToken(Row(MasterHostKey, host), MasterHostKey) == Some(host)
  {
    var l := Row(MasterHostKey, host);
    assert forall k :: 0 <= k < |l| ==> l[k] != 'S';
    MissingCharNoMatch(l, SlaveIOStateKey, 0);
    RowToken(MasterHostKey, host);
  }

  lemma PortRowTokens(port: int32)
    ensures FindToken(Row(MasterPortKey, FormatInt(port)), SlaveIOStateKey) == None
    ensures FindToken(Row(MasterPortKey, FormatInt(port)), MasterHostKey) == None
    ensures FindToken(Row(MasterPortKey, FormatInt(port)), MasterPortKey) == Some(FormatInt(port))
  {
    var l := Row(MasterPortKey, FormatInt(port));
    FormatIntChars(port);
    assert forall k :: 0 <= k < |l| ==> l[k] != 'S' && l[k] != 'H';
    MissingCharNoMatch(l, SlaveIOStateKey, 0);
    MissingCharNoMatch(l, MasterHostKey, 7);
    RowToken(MasterPortKey, FormatInt(port));
  }

  lemma IORowTokens(io: bool)
    ensures FindToken(Row(SlaveIORunningKey, YesNo(io)), SlaveIOStateKey) == None
    ensures FindToken(Row(SlaveIORunningKey, YesNo(io)), MasterHostKey) == None
    ensures FindToken(Row(SlaveIORunningKey, YesNo(io)), MasterPortKey) == None
    ensures FindToken(Row(SlaveIORunningKey, YesNo(io)), SlaveIORunningKey) == Some(YesNo(io))
  {
    var l := Row(SlaveIORunningKey, YesNo(io));
    assert forall k :: 0 <= k < |l| ==> l[k] != 't' && l[k] != 'M';
    MissingCharNoMatch(l, SlaveIOStateKey, 10);
    MissingCharNoMatch(l, MasterHostKey, 0);
    MissingCharNoMatch(l, MasterPortKey, 0);
    RowToken(SlaveIORunningKey, YesNo(io));
  }

  lemma SQLRowTokens(sql: bool)
    ensures FindToken(Row(SlaveSQLRunningKey, YesNo(sql)), SlaveIOStateKey) == None
    ensures FindToken(Row(SlaveSQLRunningKey, YesNo(sql)), MasterHostKey) == None
    ensures FindToken(Row(SlaveSQLRunningKey, YesNo(sql)), MasterPortKey) == None
    ensures FindToken(Row(SlaveSQLRunningKey, YesNo(sql)), SlaveIORunningKey) == None
    ensures FindToken(Row(SlaveSQLRunningKey, YesNo(sql)), SlaveSQLRunningKey) == Some(YesNo(sql))
  {
    var l := Row(SlaveSQLRunningKey, YesNo(sql));
    assert forall k :: 0 <= k < |l| ==> l[k] != 'I' && l[k] != 'M';
    MissingCharNoMatch(l, SlaveIOStateKey, 6);
    MissingCharNoMatch(l, MasterHostKey, 0);
    MissingCharNoMatch(l, MasterPortKey, 0);
    MissingCharNoMatch(l, SlaveIORunningKey, 6);
    RowToken(SlaveSQLRunningKey, YesNo(sql));
  }

  lemma BehindRowTokens(behind: int32)
    ensures FindToken(Row(SecondsBehindKey, FormatInt(behind)), SlaveIOStateKey) == None
    ensures FindToken(Row(SecondsBehindKey, FormatInt(behind)), MasterHostKey) == None
    ensures FindToken(Row(SecondsBehindKey, FormatInt(behind)), MasterPortKey) == None
    ensures FindToken(Row(SecondsBehindKey, FormatInt(behind)), SlaveIORunningKey) == None
    ensures FindToken(Row(SecondsBehindKey, FormatInt(behind)), SlaveSQLRunningKey) == None
    ensures FindToken(Row(SecondsBehindKey, FormatInt(behind)), SecondsBehindKey) == Some(FormatInt(behind))
  {
    var l := Row(SecondsBehindKey, FormatInt(behind));
    FormatIntChars(behind);
    assert forall k :: 0 <= k < |l| ==> l[k] != 'l' && l[k] != 'H' && l[k] != 'P';
    MissingCharNoMatch(l, SlaveIOStateKey, 1);
    MissingCharNoMatch(l, MasterHostKey, 7);
    MissingCharNoMatch(l, MasterPortKey, 7);
    MissingCharNoMatch(l, SlaveIORunningKey, 1);
    MissingCharNoMatch(l, SlaveSQLRunningKey, 1);
    RowToken(SecondsBehindKey, FormatInt(behind));
  }

  predicate NoBreak(s: string) { '\n' !in s && '\r' !in s }

  lemma RowNoBreak(key: string, v: string)
    requires NoBreak(key)
    requires forall k :: 0 <= k < |v| ==> v[k] != '\n' && v[k] != '\r'
    ensures NoBreak(Row(key, v))
  {
    var l := Row(key, v);
    assert forall k :: 0 <= k < |l| ==> l[k] != '\n' && l[k] != '\r' by {
      forall k | 0 <= k < |l|
        ensures l[k] != '\n' && l[k] != '\r'
      {
        if k < |key| {
          assert l[k] == key[k] && key[k] in key;
        }
      }
    }
  }

  lemma SlaveRowsNoBreak(rows: seq<string>, state: string, host: string, port: int32, io: bool, sql: bool, behind: int32)
    requires IsWord(state) && IsAddress(host)
    requires AreSlaveRows(rows, state, host, port, io, sql, behind)
    ensures forall k :: 0 <= k < |rows| ==> NoBreak(rows[k])
  {
    FormatIntChars(port);
    FormatIntChars(behind);
    KeysNoBreak();
    RowNoBreak(SlaveIOStateKey, state);
    RowNoBreak(MasterHostKey, host);
    RowNoBreak(MasterPortKey, FormatInt(port));
    RowNoBreak(SlaveIORunningKey, YesNo(io));
    RowNoBreak(SlaveSQLRunningKey, YesNo(sql));
    RowNoBreak(SecondsBehindKey, FormatInt(behind));
  }

  lemma KeysNoBreak()
    ensures NoBreak(SlaveIOStateKey) && NoBreak(MasterHostKey) && NoBreak(MasterPortKey)
    ensures NoBreak(SlaveIORunningKey) && NoBreak(SlaveSQLRunningKey) && NoBreak(SecondsBehindKey)
  {
  }

  /** The lines of a slave report are its rows. */
  lemma SlaveReportLines(state: string, host: string, port: int32, io: bool, sql: bool, behind: int32)
    requires IsWord(state) && IsAddress(host)
    ensures AreSlaveRows(ScanLines(SlaveReport(state, host, port, io, sql, behind)), state, host, port, io, sql, behind)
  {
    var rows := SlaveRows(state, host, port, io, sql, behind);
    SlaveRowsNoBreak(rows, state, host, port, io, sql, behind);
    ScanLinesOfJoin(rows);
  }

  /** The scan of six lines, each matching one expression and none tried
      before it. */
  lemma {:induction false} ScanSlaveSix(rows: seq<string>, state: string, h: string, p: string, i: string, q: string, b: string)
    requires |rows| == 6
    requires FindToken(rows[0], SlaveIOStateKey) == Some(state)
    requires FindToken(rows[1], SlaveIOStateKey) == None && FindToken(rows[1], MasterHostKey) == Some(h)
    requires FindToken(rows[2], SlaveIOStateKey) == None && FindToken(rows[2], MasterHostKey) == None
    requires FindToken(rows[2], MasterPortKey) == Some(p)
    requires FindToken(rows[3], SlaveIOStateKey) == None && FindToken(rows[3], MasterHostKey) == None
    requires FindToken(rows[3], MasterPortKey) == None && FindToken(rows[3], SlaveIORunningKey) == Some(i)
    requires FindToken(rows[4], SlaveIOStateKey) == None && FindToken(rows[4], MasterHostKey) == None
    requires FindToken(rows[4], MasterPortKey) == None && FindToken(rows[4], SlaveIORunningKey) == None
    requires FindToken(rows[4], SlaveSQLRunningKey) == Some(q)
    requires FindToken(rows[5], SlaveIOStateKey) == None && FindToken(rows[5], MasterHostKey) == None
    requires FindToken(rows[5], MasterPortKey) == None && FindToken(rows[5], SlaveIORunningKey) == None
    requires FindToken(rows[5], SlaveSQLRunningKey) == None && FindToken(rows[5], SecondsBehindKey) == Some(b)
    ensures ScanSlave(rows) == SlaveScan(true, ToLower(h), ToLower(p), ToLower(i), ToLower(q), ToLower(b))
  {
    var s1 := NoSlaveScan.(enable := true);
    var s2 := s1.(masterHost := ToLower(h));
    var s3 := s2.(masterPort := ToLower(p));
    var s4 := s3.(ioRunning := ToLower(i));
    var s5 := s4.(sqlRunning := ToLower(q));
    var s6 := s5.(behind := ToLower(b));
    assert SlaveStep(NoSlaveScan, rows[0]) == s1;
    assert SlaveStep(s1, rows[1]) == s2;
    assert SlaveStep(s2, rows[2]) == s3;
    assert SlaveStep(s3, rows[3]) == s4;
    assert SlaveStep(s4, rows[4]) == s5;
    assert SlaveStep(s5, rows[5]) == s6;
    ScanSlavePrefix(rows, 1, NoSlaveScan, s1);
    ScanSlavePrefix(rows, 2, s1, s2);
    ScanSlavePrefix(rows, 3, s2, s3);
    ScanSlavePrefix(rows, 4, s3, s4);
    ScanSlavePrefix(rows, 5, s4, s5);
    ScanSlavePrefix(rows, 6, s5, s6);
    assert rows[..6] == rows;
  }

  lemma ScanSlavePrefix(rows: seq<string>, n: nat, before: SlaveScan, after: SlaveScan)
    requires 0 < n <= |rows|
    requires ScanSlave(rows[..n - 1]) == before && SlaveStep(before, rows[n - 1]) == after
    ensures ScanSlave(rows[..n]) == after
  {
    assert rows[..n][..n - 1] == rows[..n - 1];
  }

  lemma LowerOfDigits(s: string)
    requires forall k :: 0 <= k < |s| ==> s[k] == '-' || s[k] == '.' || IsDigit(s[k])
    ensures ToLower(s) == s
  {
  }

  predicate AreSlaveRows(rows: seq<string>, state: string, host: string, port: int32, io: bool, sql: bool, behind: int32) {
    |rows| == 6 &&
    rows[0] == Row(SlaveIOStateKey, state) &&
    rows[1] == Row(MasterHostKey, host) &&
    rows[2] == Row(MasterPortKey, FormatInt(port)) &&
    rows[3] == Row(SlaveIORunningKey, YesNo(io)) &&
    rows[4] == Row(SlaveSQLRunningKey, YesNo(sql)) &&
    rows[5] == Row(SecondsBehindKey, FormatInt(behind))
  }

  lemma SlaveRowsScan(rows: seq<string>, state: string, host: string, port: int32, io: bool, sql: bool, behind: int32)
    requires IsWord(state) && IsAddress(host)
    requires AreSlaveRows(rows, state, host, port, io, sql, behind)
    ensures ScanSlave(rows) == SlaveScan(true, host, FormatInt(port), ToLower(YesNo(io)), ToLower(YesNo(sql)), FormatInt(behind))
  {
    RowToken(SlaveIOStateKey, state);
    HostRowTokens(host);
    PortRowTokens(port);
    IORowTokens(io);
    SQLRowTokens(sql);
    BehindRowTokens(behind);
    ScanSlaveSix(rows, state, host, FormatInt(port), YesNo(io), YesNo(sql), FormatInt(behind));
    FormatIntChars(port);
    FormatIntChars(behind);
    LowerOfDigits(host);
    LowerOfDigits(FormatInt(port));
    LowerOfDigits(FormatInt(behind));
  }

  /** Reading back the rows of a report of a replicating slave gives what
      they show: the master host and port, running iff both threads say `Yes`,
      and the lag.  (`SlaveReportLines` states that the lines of `SlaveReport`
      are such rows.)  A caught-up slave (`Yes`, `Yes`, 0) parses to a
      record the written `SlaveStatus.IsOK` rejects. */
  lemma SlaveReportRoundTrip(rows: seq<string>, state: string, host: string, port: int32, io: bool, sql: bool, behind: int32, now: int64)
    requires IsWord(state) && IsAddress(host)
    requires AreSlaveRows(rows, state, host, port, io, sql, behind)
    ensures SlaveStatusOf(ScanSlave(rows), now) == SlaveStatus(true, host, port, io && sql, behind, now)
  {
    SlaveRowsScan(rows, state, host, port, io, sql, behind);
    ParseFormatInt(port, Bits32);
    ParseFormatInt(behind, Bits32);
    assert ToLower("Yes") == "yes" && ToLower("No") == "no";
  }

  // ---------------------------------------------------------------------------
  // Statements and command lines

  /** `grantReplicate`. */
  function GrantReplicateSql(env: Env): string {
    "grant replication slave on *.* to '" + env.root + "'@'%' identified by '" + env.password + "';"
  }

  /** `changeMaster`. */
  function ChangeMasterSql(env: Env, m: MasterInfo): string {
    "change master to master_host='" + m.host + "', master_port=" + FormatInt(m.port) +
    ", master_user='" + env.root + "',master_password='" + env.password +
    "', master_log_file='" + m.logFile + "',master_log_pos=" + FormatInt(m.logPos) + ";"
  }

  const StartSlaveSql := "start slave;"
  const StopSlaveSql := "stop slave;"

  /** The client command line of `execDatabaseCmd`, before the statement. */
  function ClientLine(env: Env): string {
    "mysql -u" + env.root + " -p" + env.password + " -e"
  }

  /** A statement in double quotes, as the last word of the command. */
  function Quoted(sql: string): string {
    "\"" + sql + "\""
  }

  /** `execDatabaseCmd`: `mysql -u<root> -p<password> -e` split at each
      space, then the statement in double quotes. */
  function DatabaseArgv(env: Env, sql: string): (argv: seq<string>)
  {
    Split(ClientLine(env), ' ') + [Quoted(sql)]
  }

  /** With space-free credentials the argv is the five words of the command
      line, and joining it with spaces (as the pod executor does) gives the
      shell command back. */
  lemma DatabaseArgvWords(env: Env, sql: string)
    requires ' ' !in env.root && ' ' !in env.password
    ensures DatabaseArgv(env, sql) == ["mysql", "-u" + env.root, "-p" + env.password, "-e", Quoted(sql)]
    ensures Join(DatabaseArgv(env, sql), " ") == ClientLine(env) + " " + Quoted(sql)
  {
    var u, p := "-u" + env.root, "-p" + env.password;
    assert ClientLine(env) == "mysql " + u + " " + p + " -e";
    WordsOfLine(u, p, ClientLine(env));
    JoinSnoc(["mysql", u, p, "-e"], Quoted(sql), " ");
  }

  /** The client command line without its statement splits into its words. */
  lemma WordsOfLine(u: string, p: string, line: string)
    requires ' ' !in u && ' ' !in p
    requires line == "mysql " + u + " " + p + " -e"
    ensures Split(line, ' ') == ["mysql", u, p, "-e"]
    ensures Join(["mysql", u, p, "-e"], " ") == line
  {
    FourWords(u, p);
    SplitJoin(["mysql", u, p, "-e"], ' ');
  }

  /** The four leading words of the client command line, joined by spaces. */
  lemma FourWords(u: string, p: string)
    requires ' ' !in u && ' ' !in p
    ensures Join(["mysql", u, p, "-e"], " ") == "mysql " + u + " " + p + " -e"
    ensures forall k :: 0 <= k < 4 ==> ' ' !in ["mysql", u, p, "-e"][k]
  {
    var words := ["mysql", u, p, "-e"];
    assert words[3..] == ["-e"];
    assert Join(words[2..], " ") == p + " -e" by {
      assert words[2..][1..] == words[3..];
    }
    assert Join(words[1..], " ") == u + " " + p + " -e" by {
      assert words[1..][1..] == words[2..];
    }
  }

  /** The words of a mariabackup command: the program and the mode, then
      the target words. */
  function MariabackupWords(mode: string, svc: Svc, env: Env): seq<string> {
    ["mariabackup", "--" + mode] + TargetWords(svc, env)
  }

  /** The service's host and port, the two fixed directories, the user and
      the password. */
  function TargetWords(svc: Svc, env: Env): seq<string> {
    ["--host=" + svc.host, "--port=" + FormatInt(svc.port), "--target-dir=/backup",
     "--datadir=/var/lib/mysql", "--user=" + env.root, "--password=" + env.password]
  }

  /** A mariabackup command line in `mode` (`backup`, `prepare` or
      `copy-back`): the format string of the source separates its fields by
      single spaces, so the line is its words joined by ' '.  The source
      reads the endpoint and the credentials without a check. */
  function MariabackupCmd(mode: string, info: ServiceInfo): string
    requires info.svc.Some? && info.env.Some?
  {
    Join(MariabackupWords(mode, info.svc.value, info.env.value), " ")
  }

  /** The host and the credentials contain no space. */
  predicate SpaceFree(svc: Svc, env: Env) {
    ' ' !in svc.host && ' ' !in env.root && ' ' !in env.password
  }

  /** For a space-free mode, host and credentials, the command line splits
      on ' ' back into exactly its eight words. */
  lemma MariabackupSplits(mode: string, info: ServiceInfo)
    requires info.svc.Some? && info.env.Some? && ' ' !in mode && SpaceFree(info.svc.value, info.env.value)
    ensures Split(MariabackupCmd(mode, info), ' ') == MariabackupWords(mode, info.svc.value, info.env.value)
    ensures |MariabackupWords(mode, info.svc.value, info.env.value)| == 8
  {
    var w := MariabackupWords(mode, info.svc.value, info.env.value);
    FormatIntChars(info.svc.value.port);
    forall k | 0 <= k < |w|
      ensures ' ' !in w[k]
    {
      WordHasNoSpace(mode, info.svc.value, info.env.value, k);
    }
    SplitJoin(w, ' ');
  }

  lemma WordHasNoSpace(mode: string, svc: Svc, env: Env, k: nat)
    requires ' ' !in mode && SpaceFree(svc, env) && k < 8
    requires forall j :: 0 <= j < |FormatInt(svc.port)| ==> FormatInt(svc.port)[j] == '-' || IsDigit(FormatInt(svc.port)[j])
    ensures ' ' !in MariabackupWords(mode, svc, env)[k]
  {
    var heads := ["mariabackup", "--", "--host=", "--port=", "--target-dir=/backup", "--datadir=/var/lib/mysql", "--user=", "--password="];
    var tails := ["", mode, svc.host, FormatInt(svc.port), "", "", env.root, env.password];
    assert MariabackupWords(mode, svc, env)[k] == heads[k] + tails[k];
    assert ' ' !in heads[k];
  }

  /** `backup`: empty the back-up directory, take the back-up, prepare it. */
  function BackupCommands(info: ServiceInfo): seq<string>
    requires info.svc.Some? && info.env.Some?
  {
    ["cd /backup/ && rm -rf * && ls /backup/", MariabackupCmd("backup", info), MariabackupCmd("prepare", info)]
  }

  /** `restore`: empty the data directory, copy the back-up in, hand the
      files to the mysql user. */
  function RestoreCommands(info: ServiceInfo): seq<string>
    requires info.svc.Some? && info.env.Some?
  {
    ["cd /var/lib/mysql/ && rm -rf * && cd -", MariabackupCmd("copy-back", info), "chown -R mysql:mysql /var/lib/mysql/*"]
  }

  /** The back-up job cleans /backup, then runs mariabackup in `backup` and
      then in `prepare` mode against the service's own host and port with its
      user and password. */
  lemma BackupJobCommands(info: ServiceInfo)
    requires info.svc.Some? && info.env.Some? && SpaceFree(info.svc.value, info.env.value)
    ensures var cmds := BackupCommands(info);
            |cmds| == 3 && cmds[0] == "cd /backup/ && rm -rf * && ls /backup/" &&
            Split(cmds[1], ' ') == MariabackupWords("backup", info.svc.value, info.env.value) &&
            Split(cmds[2], ' ') == MariabackupWords("prepare", info.svc.value, info.env.value)
  {
    MariabackupSplits("backup", info);
    MariabackupSplits("prepare", info);
  }

  /** The restore job empties the data directory, runs mariabackup in
      `copy-back` mode with the same endpoint and credentials, and restores
      the ownership of the files. */
  lemma RestoreJobCommands(info: ServiceInfo)
    requires info.svc.Some? && info.env.Some? && SpaceFree(info.svc.value, info.env.value)
    ensures var cmds := RestoreCommands(info);
            |cmds| == 3 && cmds[0] == "cd /var/lib/mysql/ && rm -rf * && cd -" &&
            Split(cmds[1], ' ') == MariabackupWords("copy-back", info.svc.value, info.env.value) &&
            cmds[2] == "chown -R mysql:mysql /var/lib/mysql/*"
  {
    MariabackupSplits("copy-back", info);
  }

  /** Two mariabackup commands for one service split into words that agree
      everywhere but in the mode word. */
  lemma ModeWordOnly(m1: string, m2: string, info: ServiceInfo)
    requires info.svc.Some? && info.env.Some? && ' ' !in m1 && ' ' !in m2 && SpaceFree(info.svc.value, info.env.value)
    ensures var a := Split(MariabackupCmd(m1, info), ' ');
            var b := Split(MariabackupCmd(m2, info), ' ');
            |a| == |b| == 8 && a[..1] == b[..1] && a[2..] == b[2..] &&
            a[1] == "--" + m1 && b[1] == "--" + m2
  {
    var svc, env := info.svc.value, info.env.value;
    MariabackupSplits(m1, info);
    MariabackupSplits(m2, info);
    assert MariabackupWords(m1, svc, env)[2..] == TargetWords(svc, env);
    assert MariabackupWords(m2, svc, env)[2..] == TargetWords(svc, env);
  }

  /** The restore's mariabackup command differs from the back-up's only in
      the mode word. */
  lemma RestoreDiffersInMode(info: ServiceInfo)
    requires info.svc.Some? && info.env.Some? && SpaceFree(info.svc.value, info.env.value)
    ensures var b := Split(BackupCommands(info)[1], ' ');
            var r := Split(RestoreCommands(info)[1], ' ');
            |b| == |r| == 8 && b[..1] == r[..1] && b[2..] == r[2..] && b[1] != r[1]
  {
    ModeWordOnly("backup", "copy-back", info);
    assert |"--" + "backup"| != |"--" + "copy-back"|;
  }

  function BackupJobName(info: ServiceInfo): string { info.name + "-backup" }
  function RestoreJobName(info: ServiceInfo): string { info.name + "-restore" }
}
