/** The mirror process supervisor (ScrcpyService): the preset-to-argument serialiser, the
    exit summary, and the one-slot session state machine over the current process.
    A process is an opaque handle numbered in launch order; the file system, the
    outcome of launching and of killing a process are inputs. */
module Scrcpy {
  import opened Wrappers
  import opened Text

  /** The quality presets (AdbMirror/Core/ScrcpyService.cs, enum ScrcpyPreset). */
  datatype ScrcpyPreset = Low | Balanced | High

  /** Enum.ToString(), as it appears in log lines. */
  function PresetName(p: ScrcpyPreset): string {
    match p
    case Low => "Low"
    case Balanced => "Balanced"
    case High => "High"
  }

  // ---------------------------------------------------------------------------
  // BuildArguments

  /** The bundle of flags each preset appends. */
  function PresetFlags(p: ScrcpyPreset): string {
    match p
    case Low => " --video-bit-rate 4M --max-size 1024 --max-fps 30"
    case Balanced => " --video-bit-rate 8M --max-size 1280 --max-fps 60"
    case High => " --video-bit-rate 16M --max-size 1920 --max-fps 60"
  }

  /** The flags every session gets: keep the device awake, turn its screen off. */
  const FixedFlags: string := " --stay-awake --turn-screen-off"

  /** The device selector: `-s`, then the serial in double quotes. */
  function SerialSelector(serial: string): string {
    "-s \"" + serial + "\""
  }

  /** BuildArguments: the selector, the preset's bundle, the fixed flags. */
  function BuildArguments(serial: string, preset: ScrcpyPreset): (args: string)
    ensures StartsWith(args, SerialSelector(serial))
    ensures |FixedFlags| <= |args| && args[|args| - |FixedFlags|..] == FixedFlags
  {
    SerialSelector(serial) + PresetFlags(preset) + FixedFlags
  }

  /** The quality a preset asks for: bit rate in Mbit/s, largest dimension, frame rate. */
  datatype Quality = Quality(bitRateMbps: nat, maxSize: nat, maxFps: nat)

  /** The preset table. */
  function QualityOf(p: ScrcpyPreset): Quality {
    match p
    case Low => Quality(4, 1024, 30)
    case Balanced => Quality(8, 1280, 60)
    case High => Quality(16, 1920, 60)
  }

  /** The flags a quality turns into, in the order the bundles list them. */
  function QualityFlags(q: Quality): string {
    " --video-bit-rate " + NatToString(q.bitRateMbps) + "M --max-size " + NatToString(q.maxSize)
    + " --max-fps " + NatToString(q.maxFps)
  }

  /** Each preset's bundle spells out exactly the table's numbers. */
  lemma PresetFlagsFollowTable(p: ScrcpyPreset)
    ensures PresetFlags(p) == QualityFlags(QualityOf(p))
  {
    match p
    case Low => LowFlags();
    case Balanced => BalancedFlags();
    case High => HighFlags();
  }

  lemma LowFlags()
    ensures PresetFlags(Low) == QualityFlags(Quality(4, 1024, 30))
  {
    LowNumbers();
    LowSpelling();
  }

  lemma LowNumbers()
    ensures NatToString(4) == "4" && NatToString(1024) == "1024" && NatToString(30) == "30"
  {
  }

  /** The Low bundle, cut where the numbers go. */
  lemma LowSpelling()
    ensures PresetFlags(Low) == " --video-bit-rate " + "4" + "M --max-size " + "1024" + " --max-fps " + "30"
  {
  }

  lemma BalancedFlags()
    ensures PresetFlags(Balanced) == QualityFlags(Quality(8, 1280, 60))
  {
    BalancedNumbers();
    BalancedSpelling();
  }

  lemma BalancedNumbers()
    ensures NatToString(8) == "8" && NatToString(1280) == "1280" && NatToString(60) == "60"
  {
  }

  /** The Balanced bundle, cut where the numbers go. */
  lemma BalancedSpelling()
    ensures PresetFlags(Balanced) == " --video-bit-rate " + "8" + "M --max-size " + "1280" + " --max-fps " + "60"
  {
  }

  lemma HighFlags()
    ensures PresetFlags(High) == QualityFlags(Quality(16, 1920, 60))
  {
    HighNumbers();
    HighSpelling();
  }

  lemma HighNumbers()
    ensures NatToString(16) == "16" && NatToString(1920) == "1920" && NatToString(60) == "60"
  {
  }

  /** The High bundle, cut where the numbers go. */
  lemma HighSpelling()
    ensures PresetFlags(High) == " --video-bit-rate " + "16" + "M --max-size " + "1920" + " --max-fps " + "60"
  {
  }

  /** The option words a quality turns into. */
  function QualityWords(q: Quality): seq<string> {
    ["--video-bit-rate", NatToString(q.bitRateMbps) + "M",
     "--max-size", NatToString(q.maxSize),
     "--max-fps", NatToString(q.maxFps)]
  }

  lemma QualityFlagsWords(q: Quality)
    ensures QualityFlags(q) == " " + JoinWords(QualityWords(q))
  {
    FlagsAsWords(NatToString(q.bitRateMbps), NatToString(q.maxSize), NatToString(q.maxFps));
  }

  lemma FlagsAsWords(rate: string, size: string, fps: string)
    ensures " --video-bit-rate " + rate + "M --max-size " + size + " --max-fps " + fps
            == " " + JoinWords(["--video-bit-rate", rate + "M", "--max-size", size, "--max-fps", fps])
  {
    JoinSixWords("--video-bit-rate", rate + "M", "--max-size", size, "--max-fps", fps);
  }

  lemma JoinSixWords(a: string, b: string, c: string, d: string, e: string, f: string)
    ensures JoinWords([a, b, c, d, e, f]) == a + " " + (b + " " + (c + " " + (d + " " + (e + " " + f))))
  {
    assert [e, f][1..] == [f];
    assert JoinWords([e, f]) == e + " " + f;
    assert [d, e, f][1..] == [e, f];
    assert JoinWords([d, e, f]) == d + " " + (e + " " + f);
    assert [c, d, e, f][1..] == [d, e, f];
    assert JoinWords([c, d, e, f]) == c + " " + (d + " " + (e + " " + f));
    assert [b, c, d, e, f][1..] == [c, d, e, f];
    assert JoinWords([b, c, d, e, f]) == b + " " + (c + " " + (d + " " + (e + " " + f)));
    assert [a, b, c, d, e, f][1..] == [b, c, d, e, f];
  }

  /** The two option words every session gets. */
  const FixedWords: seq<string> := ["--stay-awake", "--turn-screen-off"]

  /** The option words of a session. */
  function ArgumentWordList(p: ScrcpyPreset): seq<string> {
    QualityWords(QualityOf(p)) + FixedWords
  }

  /** What follows the serial splits into the preset's quality words and then the two
      fixed flags. In particular none of them is --no-control, which would clash with
      --turn-screen-off. */
  lemma ArgumentWords(serial: string, p: ScrcpyPreset)
    ensures BuildArguments(serial, p) == SerialSelector(serial) + " " + JoinWords(ArgumentWordList(p))
    ensures Split(BuildArguments(serial, p)[|SerialSelector(serial)|..]) == ArgumentWordList(p)
    ensures "--no-control" !in ArgumentWordList(p)
  {
    var words := ArgumentWordList(p);
    var joined := JoinWords(words);
    FlagsJoinWords(p);
    var sel := SerialSelector(serial);
    AppendAssoc(sel, PresetFlags(p), FixedFlags);
    assert BuildArguments(serial, p)[|sel|..] == " " + joined;
    WordsAreTokens(p);
    SplitJoinWords(words);
    assert (" " + joined)[1..] == joined;
  }

  /** The preset's bundle and the fixed flags are the option words joined by spaces. */
  lemma FlagsJoinWords(p: ScrcpyPreset)
    ensures PresetFlags(p) + FixedFlags == " " + JoinWords(ArgumentWordList(p))
  {
    var q := QualityWords(QualityOf(p));
    PresetFlagsFollowTable(p);
    QualityFlagsWords(QualityOf(p));
    FixedFlagsWords();
    SpacedBlocks(PresetFlags(p), FixedFlags, q, FixedWords);
  }

  /** Two blocks of space-led words, one after the other, are the space-led words of both. */
  lemma SpacedBlocks(x: string, y: string, a: seq<string>, b: seq<string>)
    requires a != [] && b != []
    requires x == " " + JoinWords(a) && y == " " + JoinWords(b)
    ensures x + y == " " + JoinWords(a + b)
  {
    JoinWordsAppend(a, b);
    AppendAssoc(" " + JoinWords(a), " ", JoinWords(b));
  }

  lemma FixedFlagsWords()
    ensures FixedFlags == " " + JoinWords(FixedWords)
  {
    assert FixedWords[1..] == ["--turn-screen-off"];
    assert JoinWords(FixedWords) == "--stay-awake" + " " + "--turn-screen-off";
  }

  lemma WordsAreTokens(p: ScrcpyPreset)
    ensures forall k :: 0 <= k < |ArgumentWordList(p)| ==> IsToken(ArgumentWordList(p)[k])
    ensures "--no-control" !in ArgumentWordList(p)
  {
    var q := QualityWords(QualityOf(p));
    var words := ArgumentWordList(p);
    QualityWordsAreTokens(QualityOf(p));
    FixedWordsAreTokens();
    forall k | 0 <= k < |words| ensures IsToken(words[k]) && words[k] != "--no-control" {
      if k < |q| {
        assert words[k] == q[k];
      } else {
        assert words[k] == FixedWords[k - |q|];
      }
    }
  }

  /** The option words of a quality are tokens, and none of them is --no-control: the
      names differ from it at their third character, the numbers at their first. */
  lemma QualityWordsAreTokens(q: Quality)
    ensures forall k :: 0 <= k < |QualityWords(q)| ==>
              IsToken(QualityWords(q)[k]) && QualityWords(q)[k] != "--no-control"
  {
    var w := QualityWords(q);
    OptionNamesAreTokens();
    NumberIsToken(NatToString(q.bitRateMbps), "M");
    NumberIsToken(NatToString(q.maxSize), "");
    NumberIsToken(NatToString(q.maxFps), "");
    assert "--no-control"[2] == 'n';
    assert w[0][2] == 'v' && w[2][2] == 'm' && w[4][2] == 'm';
    assert w[1][0] == NatToString(q.bitRateMbps)[0];
    assert w[3][0] == NatToString(q.maxSize)[0] && w[5][0] == NatToString(q.maxFps)[0];
  }

  lemma FixedWordsAreTokens()
    ensures forall k :: 0 <= k < |FixedWords| ==> IsToken(FixedWords[k]) && FixedWords[k] != "--no-control"
  {
    OptionNamesAreTokens();
    assert "--no-control"[2] == 'n';
    assert FixedWords[0][2] == 's' && FixedWords[1][2] == 't';
  }

  lemma OptionNamesAreTokens()
    ensures IsToken("--video-bit-rate") && IsToken("--max-size") && IsToken("--max-fps")
    ensures IsToken("--stay-awake") && IsToken("--turn-screen-off")
  {
    VisibleIsToken("--video-bit-rate");
    VisibleIsToken("--max-size");
    VisibleIsToken("--max-fps");
    VisibleIsToken("--stay-awake");
    VisibleIsToken("--turn-screen-off");
  }

  /** Digits followed by a printable suffix form a token that starts with a digit. */
  lemma NumberIsToken(digits: string, suffix: string)
    requires IsDigits(digits)
    requires forall i :: 0 <= i < |suffix| ==> '!' <= suffix[i] <= '~'
    ensures IsToken(digits + suffix) && (digits + suffix)[0] == digits[0] && IsDigit(digits[0])
  {
    VisibleIsToken(digits + suffix);
  }

  /** A non-empty run of printable ASCII characters other than the space is a token. */
  lemma VisibleIsToken(t: string)
    requires t != [] && forall i :: 0 <= i < |t| ==> '!' <= t[i] <= '~'
    ensures IsToken(t)
  {
  }

  /** The preset whose bundle asks for the given bit-rate word. */
  function PresetOfRate(word: string): Option<ScrcpyPreset> {
    if word == "4M" then Some(Low)
    else if word == "8M" then Some(Balanced)
    else if word == "16M" then Some(High)
    else None
  }

  /** Reads a command line back into the serial and the preset: the words are `-s`, the
      quoted serial and the option words, the second of which is the bit rate. */
  function ReadArguments(args: string): Option<(string, ScrcpyPreset)> {
    var w := Split(args);
    if |w| < 4 || w[0] != "-s" || |w[1]| < 2 || w[1][0] != '"' || w[1][|w[1]| - 1] != '"' then None
    else
      match PresetOfRate(w[3])
      case None => None
      case Some(p) => Some((w[1][1..|w[1]| - 1], p))
  }

  lemma PresetOfRateWord(p: ScrcpyPreset)
    ensures PresetOfRate(QualityWords(QualityOf(p))[1]) == Some(p)
  {
    match p
    case Low =>
      assert NatToString(4) == "4";
    case Balanced =>
      assert NatToString(8) == "8";
      assert "8M"[0] != "4M"[0];
    case High =>
      assert NatToString(16) == "16";
      assert |"16M"| != |"4M"| && |"16M"| != |"8M"|;
  }

  /** BuildArguments loses nothing: for a serial without white space, as every serial
      read from the device listing is, the serial and the preset can be read back. */
  lemma ReadBuildArguments(serial: string, p: ScrcpyPreset)
    requires IsToken(serial)
    ensures ReadArguments(BuildArguments(serial, p)) == Some((serial, p))
  {
    var quoted := Quoted(serial);
    var all := CommandWords(serial, p);
    CommandWordsAreTokens(serial, p);
    SplitJoinWords(all);
    var w := Split(BuildArguments(serial, p));
    assert w == all;
    assert w[1] == quoted && w[1][1..|w[1]| - 1] == serial;
    assert w[3] == QualityWords(QualityOf(p))[1];
    PresetOfRateWord(p);
  }

  function Quoted(serial: string): string {
    "\"" + serial + "\""
  }

  /** The words of a whole command line. */
  function CommandWords(serial: string, p: ScrcpyPreset): (all: seq<string>)
    ensures BuildArguments(serial, p) == JoinWords(all)
  {
    var all := ["-s", Quoted(serial)] + ArgumentWordList(p);
    ArgumentWords(serial, p);
    JoinWordsAppend(["-s", Quoted(serial)], ArgumentWordList(p));
    SelectorWords(serial);
    all
  }

  /** The selector is the two words `-s` and the quoted serial. */
  lemma SelectorWords(serial: string)
    ensures SerialSelector(serial) == JoinWords(["-s", Quoted(serial)])
  {
    assert ["-s", Quoted(serial)][1..] == [Quoted(serial)];
    assert JoinWords(["-s", Quoted(serial)]) == "-s" + " " + Quoted(serial);
    AppendAssoc("-s \"", serial, "\"");
    assert "-s \"" == "-s" + " " + "\"";
    AppendAssoc("-s" + " ", "\"", serial + "\"");
    AppendAssoc("\"", serial, "\"");
  }

  lemma CommandWordsAreTokens(serial: string, p: ScrcpyPreset)
    requires IsToken(serial)
    ensures forall k :: 0 <= k < |CommandWords(serial, p)| ==> IsToken(CommandWords(serial, p)[k])
  {
    var all := CommandWords(serial, p);
    var words := ArgumentWordList(p);
    WordsAreTokens(p);
    QuotedIsToken(serial);
    VisibleIsToken("-s");
    assert all[0] == "-s" && all[1] == Quoted(serial);
    forall k | 0 <= k < |all| ensures IsToken(all[k]) {
      if k >= 2 { assert all[k] == words[k - 2]; }
    }
  }

  lemma QuotedIsToken(serial: string)
    requires IsToken(serial)
    ensures IsToken(Quoted(serial))
  {
    var q := Quoted(serial);
    forall i | 0 <= i < |q| ensures !IsWhiteSpace(q[i]) {
      if 0 < i < |q| - 1 { assert q[i] == serial[i - 1]; }
    }
  }

  // ---------------------------------------------------------------------------
  // The exit summary built by the Exited handler

  const CleanExit: string := "scrcpy exited."
  const FailurePrefix: string := "scrcpy failed with code "

  /** The first sentence of the summary. */
  function ExitHeadline(exitCode: int): string {
    if exitCode == 0 then CleanExit else FailurePrefix + IntToString(exitCode) + "."
  }

  /** What the summary quotes after the headline: the trimmed standard error if it is not
      blank, else the trimmed standard output if that is not blank, else nothing. A
      stream is None when reading it failed. */
  function ExitDetail(stdErr: Option<string>, stdOut: Option<string>): string {
    if !IsNullOrBlank(stdErr) then " stderr: " + Trim(stdErr.value)
    else if !IsNullOrBlank(stdOut) then " stdout: " + Trim(stdOut.value)
    else ""
  }

  /** The summary of a finished process, passed to the exit callback. It states exactly
      the exit code, the stream chosen and that stream's trimmed text. */
  function ExitSummary(exitCode: int, stdErr: Option<string>, stdOut: Option<string>): (s: string)
    ensures ReadExitSummary(s) == Some(ExpectedReport(exitCode, stdErr, stdOut))
  {
    ReadHeadline(exitCode, ExitDetail(stdErr, stdOut));
    ReadExitDetail(exitCode, stdErr, stdOut);
    ExitHeadline(exitCode) + ExitDetail(stdErr, stdOut)
  }

  /** Which stream the summary quotes. */
  datatype Channel = NoOutput | StdErr | StdOut

  /** What a summary says: the exit code, the quoted stream and the quoted text. */
  datatype ExitReport = ExitReport(code: int, channel: Channel, detail: string)

  /** The report a process exit should produce: standard error takes precedence over
      standard output, and blank or unreadable streams are not quoted. */
  function ExpectedReport(exitCode: int, stdErr: Option<string>, stdOut: Option<string>): ExitReport {
    if !IsNullOrBlank(stdErr) then ExitReport(exitCode, StdErr, Trim(stdErr.value))
    else if !IsNullOrBlank(stdOut) then ExitReport(exitCode, StdOut, Trim(stdOut.value))
    else ExitReport(exitCode, NoOutput, "")
  }

  /** The index of the first '.' in s, or |s|. */
  function IndexOfDot(s: string): (k: nat)
    ensures k <= |s| && (k < |s| ==> s[k] == '.')
    ensures forall i :: 0 <= i < k ==> s[i] != '.'
  {
    if s == [] || s[0] == '.' then 0 else 1 + IndexOfDot(s[1..])
  }

  function ReadDetail(code: int, tail: string): Option<ExitReport> {
    if tail == "" then Some(ExitReport(code, NoOutput, ""))
    else if StartsWith(tail, " stderr: ") then Some(ExitReport(code, StdErr, tail[9..]))
    else if StartsWith(tail, " stdout: ") then Some(ExitReport(code, StdOut, tail[9..]))
    else None
  }

  /** Reads a summary back into the report it states. */
  function ReadExitSummary(s: string): Option<ExitReport> {
    if StartsWith(s, CleanExit) then ReadDetail(0, s[|CleanExit|..])
    else if StartsWith(s, FailurePrefix) then
      var rest := s[|FailurePrefix|..];
      var k := IndexOfDot(rest);
      if k == |rest| then None
      else
        match ParseInt(rest[..k])
        case None => None
        case Some(code) => ReadDetail(code, rest[k + 1..])
    else None
  }

  lemma {:induction false} IndexOfDotAfter(x: string, y: string)
    requires forall i :: 0 <= i < |x| ==> x[i] != '.'
    ensures IndexOfDot(x + "." + y) == |x|
  {
    if x != [] {
      assert (x + "." + y)[1..] == x[1..] + "." + y;
      IndexOfDotAfter(x[1..], y);
    }
  }

  lemma ReadExitDetail(exitCode: int, stdErr: Option<string>, stdOut: Option<string>)
    ensures ReadDetail(exitCode, ExitDetail(stdErr, stdOut)) == Some(ExpectedReport(exitCode, stdErr, stdOut))
  {
    var tail := ExitDetail(stdErr, stdOut);
    if !IsNullOrBlank(stdErr) {
      assert tail[..9] == " stderr: ";
    } else if !IsNullOrBlank(stdOut) {
      assert tail[..9] == " stdout: ";
      assert tail[4] != " stderr: "[4];
    }
  }

  /** The headline is read back as the exit code, whatever follows it. */
  lemma ReadHeadline(exitCode: int, tail: string)
    ensures ReadExitSummary(ExitHeadline(exitCode) + tail) == ReadDetail(exitCode, tail)
  {
    var s := ExitHeadline(exitCode) + tail;
    if exitCode == 0 {
      assert s[..|CleanExit|] == CleanExit;
      assert s[|CleanExit|..] == tail;
    } else {
      var digits := IntToString(exitCode);
      assert s == FailurePrefix + (digits + "." + tail);
      assert !StartsWith(s, CleanExit) by {
        assert s[7] == FailurePrefix[7] == 'f' && CleanExit[7] == 'e';
      }
      assert s[..|FailurePrefix|] == FailurePrefix;
      var rest := s[|FailurePrefix|..];
      assert rest == digits + "." + tail;
      IndexOfDotAfter(digits, tail);
      assert rest[..|digits|] == digits;
      assert rest[|digits| + 1..] == tail;
      ParseIntToString(exitCode);
    }
  }

  /** A clean exit and only a clean exit is announced as such. */
  lemma ExitHeadlineClean(exitCode: int, stdErr: Option<string>, stdOut: Option<string>)
    ensures StartsWith(ExitSummary(exitCode, stdErr, stdOut), CleanExit) <==> exitCode == 0
  {
    var d := ExitDetail(stdErr, stdOut);
    var s := ExitSummary(exitCode, stdErr, stdOut);
    if exitCode == 0 {
      assert s == CleanExit + d;
      StartsWithAppend(CleanExit, d);
    } else {
      var rest := FailureSummaryParts(exitCode, d);
      assert s == FailurePrefix + rest;
      HeadlineLetters();
      PrefixIndex(FailurePrefix, rest, 7);
      DiffersAt(s, CleanExit, 7);
    }
  }

  /** A failed run's summary is the failure prefix followed by the code, a full stop and
      the detail. */
  lemma FailureSummaryParts(exitCode: int, d: string) returns (rest: string)
    requires exitCode != 0
    ensures ExitHeadline(exitCode) + d == FailurePrefix + rest
  {
    rest := IntToString(exitCode) + "." + d;
    assert ExitHeadline(exitCode) == FailurePrefix + IntToString(exitCode) + ".";
  }

  /** The two headlines part at their eighth character. */
  lemma HeadlineLetters()
    ensures |FailurePrefix| > 7 && FailurePrefix[7] == 'f'
    ensures |CleanExit| > 7 && CleanExit[7] == 'e'
  {
  }

  lemma PrefixIndex(p: string, rest: string, i: nat)
    requires i < |p|
    ensures i < |p + rest| && (p + rest)[i] == p[i]
  {
  }

  lemma StartsWithAppend(a: string, b: string)
    ensures StartsWith(a + b, a) && (a + b)[..|a|] == a
  {
    assert (a + b)[..|a|] == a;
  }

  /** A string that differs from a prefix at some position does not start with it. */
  lemma DiffersAt(s: string, prefix: string, i: nat)
    requires i < |prefix| && i < |s| && s[i] != prefix[i]
    ensures !StartsWith(s, prefix)
  {
  }

  // ---------------------------------------------------------------------------
  // The session slot

  /** A started scrcpy process, numbered in launch order. */
  type Handle = nat

  /** How a launch attempt went: Process.Start() returned true, returned false, or threw. */
  datatype Launch = Started | NotStarted | LaunchThrew(message: string)

  /** A call to StartMirroring: the serial and the preset asked for. */
  datatype Request = Request(serial: string, preset: ScrcpyPreset)

  /** The executable and the argument string a process was started with. */
  datatype Command = Command(fileName: string, arguments: string)

  /** What the world answers while a start is in progress: which files exist, the path a
      fresh resolution finds, whether killing a running previous process succeeds, and
      how the launch goes. */
  datatype StartEnv = StartEnv(fileExists: string -> bool, reresolved: string, killSucceeds: bool, launch: Launch)

  /** The supervisor's state: the resolved path and the slot for the current process,
      plus the history: every start request, and for every handle what it was started
      with and whether it has been released (disposed), killed, or seen to exit. */
  datatype Supervisor = Supervisor(
    path: string,
    current: Option<Handle>,
    launched: nat,
    released: set<Handle>,
    killed: set<Handle>,
    exited: set<Handle>,
    commands: seq<Command>,
    requests: seq<Request>)

  /** At most one process is held: every process ever started, except the one in the
      slot, has been released. */
  ghost predicate SupervisorInv(s: Supervisor) {
    && |s.commands| == s.launched
    && (s.current.Some? ==> s.current.value < s.launched)
    && (forall h: Handle :: h < s.launched && s.current != Some(h) ==> h in s.released)
    && (forall h :: h in s.killed ==> h < s.launched)
    && (forall h :: h in s.exited ==> h < s.launched)
  }

  /** A process that has been started and has neither been killed nor exited. */
  ghost predicate Alive(s: Supervisor, h: Handle) {
    h < s.launched && h !in s.killed && h !in s.exited
  }

  function InitialSupervisor(path: string): (s: Supervisor)
    ensures SupervisorInv(s)
    ensures s.path == path && s.current == None && s.launched == 0 && s.requests == []
  {
    Supervisor(path, None, 0, {}, {}, {}, [], [])
  }

  const NotFoundAdvice: string :=
    "Place scrcpy.exe in a 'scrcpy' folder next to this app, or install it and add it to PATH."

  /** IsScrcpyAvailable: the current path exists, or the path found by resolving again
      exists; the re-resolved path is kept either way. */
  function CheckAvailable(s: Supervisor, fileExists: string -> bool, reresolved: string)
    : (r: (Supervisor, bool, Option<string>))
    ensures r.1 <==> fileExists(s.path) || fileExists(reresolved)
    ensures r.1 <==> r.2 == None
    ensures r.0 == (if fileExists(s.path) then s else s.(path := reresolved))
    ensures !r.1 ==> r.2 == Some("scrcpy not found at '" + reresolved + "'.\n" + NotFoundAdvice)
    ensures !r.1 ==> !IsBlank(r.2.value)
  {
    if fileExists(s.path) then (s, true, None)
    else
      var s' := s.(path := reresolved);
      if fileExists(reresolved) then (s', true, None)
      else
        var e := "scrcpy not found at '" + reresolved + "'.\n" + NotFoundAdvice;
        assert e[0] == 's';
        (s', false, Some(e))
  }

  /** StopMirroring: with nothing held, nothing happens; otherwise the process is killed
      when it is still running and the kill succeeds, and its handle is released and the
      slot cleared in every case. */
  function Stop(s: Supervisor, killSucceeds: bool): (r: Supervisor)
    ensures r.current == None
    ensures s.current == None ==> r == s
    ensures s.current.Some? ==>
              r == s.(current := None, released := s.released + {s.current.value},
                      killed := if killSucceeds && s.current.value !in s.exited
                                then s.killed + {s.current.value} else s.killed)
    ensures SupervisorInv(s) ==> SupervisorInv(r)
  {
    match s.current
    case None => s
    case Some(h) =>
      s.(current := None, released := s.released + {h},
         killed := if killSucceeds && h !in s.exited then s.killed + {h} else s.killed)
  }

  /** Stopping twice is stopping once. */
  lemma StopIdempotent(s: Supervisor, first: bool, second: bool)
    ensures Stop(Stop(s, first), second) == Stop(s, first)
  {
  }

  /** StartMirroring: stop whatever is held, check that scrcpy exists, then launch. Only
      a launch that starts the process fills the slot, with a handle never used before. */
  function Start(s: Supervisor, serial: string, preset: ScrcpyPreset, env: StartEnv)
    : (r: (Supervisor, bool, Option<string>))
    ensures r.1 <==> r.2 == None
    ensures r.1 <==> env.launch == Started && (env.fileExists(s.path) || env.fileExists(env.reresolved))
    ensures r.1 ==> r.0.current == Some(s.launched) && r.0.launched == s.launched + 1
    ensures !r.1 ==> r.0.current == None && r.0.launched == s.launched
    ensures !r.1 ==> !IsBlank(r.2.value)
    ensures r.1 ==> env.fileExists(r.0.path)
    ensures r.0.commands == s.commands + (if r.1 then [Command(r.0.path, BuildArguments(serial, preset))] else [])
    ensures r.0.requests == s.requests + [Request(serial, preset)]
    ensures s.current.Some? ==> s.current.value in r.0.released
    ensures s.released <= r.0.released
    ensures SupervisorInv(s) ==> SupervisorInv(r.0)
  {
    var requested := s.(requests := s.requests + [Request(serial, preset)]);
    var stopped := Stop(requested, env.killSucceeds);
    var (checked, available, error) := CheckAvailable(stopped, env.fileExists, env.reresolved);
    if !available then (checked, false, error)
    else Spawn(checked, BuildArguments(serial, preset), env.launch)
  }

  /** The launch itself, once scrcpy was found: only a started process fills the slot,
      with the next handle; a launch that does not start or throws reports why. */
  function Spawn(s: Supervisor, args: string, launch: Launch): (r: (Supervisor, bool, Option<string>))
    ensures r.1 <==> launch == Started
    ensures r.1 <==> r.2 == None
    ensures r.1 ==> r.0 == s.(current := Some(s.launched), launched := s.launched + 1,
                              commands := s.commands + [Command(s.path, args)])
    ensures !r.1 ==> r.0 == s && !IsBlank(r.2.value)
  {
    match launch
    case Started =>
      (s.(current := Some(s.launched), launched := s.launched + 1,
          commands := s.commands + [Command(s.path, args)]), true, None)
    case NotStarted =>
      assert "Failed to start scrcpy process."[0] == 'F';
      (s, false, Some("Failed to start scrcpy process."))
    case LaunchThrew(message) =>
      var e := "Failed to start scrcpy: " + message + "\nPath: " + s.path + "\nArgs: " + args;
      assert e[0] == 'F';
      (s, false, Some(e))
  }

  /** A process has exited: from now on it cannot be killed. Its handler is about to run;
      the slot is not touched. */
  function MarkExited(s: Supervisor, h: Handle): (r: Supervisor)
    ensures r.current == s.current && r.launched == s.launched && r.released == s.released
    ensures h in r.exited
    ensures SupervisorInv(s) && h < s.launched ==> SupervisorInv(r)
  {
    s.(exited := s.exited + {h})
  }

  /** The end of the Exited handler: the process is disposed, but the slot keeps it. */
  function DisposeExited(s: Supervisor, h: Handle): (r: Supervisor)
    ensures r.current == s.current && r.launched == s.launched
    ensures h in r.released
    ensures SupervisorInv(s) ==> SupervisorInv(r)
  {
    s.(released := s.released + {h})
  }

  /** Two starts in a row: the first session's process is released, and killed if the
      kill succeeds, and only the second one is held. */
  lemma StartTwice(s: Supervisor, a: string, b: string, p: ScrcpyPreset, q: ScrcpyPreset,
                   envA: StartEnv, envB: StartEnv)
    requires SupervisorInv(s)
    requires envA.launch == Started && envA.fileExists(s.path)
    requires envB.launch == Started && envB.killSucceeds
    ensures var (s1, ok1, _) := Start(s, a, p, envA);
            var (s2, ok2, _) := Start(s1, b, q, envB);
            && ok1 && s1.current == Some(s.launched)
            && (envB.fileExists(s1.path) || envB.fileExists(envB.reresolved) ==>
                  ok2 && s2.current == Some(s.launched + 1))
            && s.launched in s2.released && s.launched in s2.killed
            && !Alive(s2, s.launched)
            && SupervisorInv(s2)
  {
    var (s1, ok1, _) := Start(s, a, p, envA);
    assert s1.exited == s.exited;
  }

  // ---------------------------------------------------------------------------
  // The supervisor object

  class ScrcpyService {
    var scrcpyPath: string
    var currentProcess: Option<Handle>
    /** The number of processes started so far, which numbers the next handle. */
    var launched: nat
    ghost var released: set<Handle>
    ghost var killed: set<Handle>
    ghost var exited: set<Handle>
    ghost var commands: seq<Command>
    ghost var requests: seq<Request>

    ghost function Snapshot(): Supervisor
      reads this
    {
      Supervisor(scrcpyPath, currentProcess, launched, released, killed, exited, commands, requests)
    }

    ghost predicate Valid()
      reads this
    {
      SupervisorInv(Snapshot())
    }

    /** The path is resolved by the caller (how is not modelled). */
    constructor (resolvedPath: string)
      ensures Snapshot() == InitialSupervisor(resolvedPath)
      ensures Valid()
    {
      scrcpyPath := resolvedPath;
      currentProcess := None;
      launched := 0;
      released, killed, exited := {}, {}, {};
      commands := [];
      requests := [];
    }

    method IsScrcpyAvailable(fileExists: string -> bool, reresolved: string) returns (ok: bool, error: Option<string>)
      requires Valid()
      modifies this
      ensures Valid()
      ensures (Snapshot(), ok, error) == CheckAvailable(old(Snapshot()), fileExists, reresolved)
    {
      if fileExists(scrcpyPath) {
        return true, None;
      }
      scrcpyPath := reresolved;
      if fileExists(scrcpyPath) {
        return true, None;
      }
      error := Some("scrcpy not found at '" + scrcpyPath + "'.\n" + NotFoundAdvice);
      return false, error;
    }

    method StopMirroring(killSucceeds: bool)
      requires Valid()
      modifies this
      ensures Valid()
      ensures Snapshot() == Stop(old(Snapshot()), killSucceeds)
    {
      if currentProcess == None {
        return;
      }
      var h := currentProcess.value;
      if h !in exited && killSucceeds {
        killed := killed + {h};
      }
      released := released + {h};
      currentProcess := None;
    }

    method StartMirroring(serial: string, preset: ScrcpyPreset, env: StartEnv)
      returns (ok: bool, error: Option<string>)
      requires Valid()
      modifies this
      ensures Valid()
      ensures (Snapshot(), ok, error) == Start(old(Snapshot()), serial, preset, env)
    {
      requests := requests + [Request(serial, preset)];
      assert Snapshot() == old(Snapshot()).(requests := requests);
      StopMirroring(env.killSucceeds);
      ok, error := IsScrcpyAvailable(env.fileExists, env.reresolved);
      if !ok {
        return false, error;
      }
      var args := BuildArguments(serial, preset);
      ok, error := SpawnProcess(args, env.launch);
    }

    /** The launch itself, once scrcpy was found and the slot was emptied; only a started
        process fills the slot. */
    method SpawnProcess(args: string, launch: Launch) returns (ok: bool, error: Option<string>)
      requires Valid() && currentProcess == None
      modifies this
      ensures Valid()
      ensures (Snapshot(), ok, error) == Spawn(old(Snapshot()), args, launch)
    {
      match launch
      case NotStarted =>
        return false, Some("Failed to start scrcpy process.");
      case LaunchThrew(message) =>
        return false, Some("Failed to start scrcpy: " + message + "\nPath: " + scrcpyPath + "\nArgs: " + args);
      case Started =>
        currentProcess := Some(launched);
        launched := launched + 1;
        commands := commands + [Command(scrcpyPath, args)];
        return true, None;
    }

    /** The operating system reports that process h has exited. */
    method ProcessHasExited(h: Handle)
      requires Valid() && h < launched
      modifies this
      ensures Valid()
      ensures Snapshot() == MarkExited(old(Snapshot()), h)
    {
      exited := exited + {h};
    }

    /** The Exited handler disposes its process once the summary has been delivered. */
    method DisposeProcess(h: Handle)
      requires Valid()
      modifies this
      ensures Valid()
      ensures Snapshot() == DisposeExited(old(Snapshot()), h)
    {
      released := released + {h};
    }
  }
}
