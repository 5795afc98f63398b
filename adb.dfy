/** The device bridge client (AdbService): the availability check, the parser for the
    output of `adb devices -l`, the classification of the system into one DeviceState,
    and the choice of the adb executable among candidate paths. Running adb is not
    modelled: each command's result is an input. */
module Adb {
  import opened Wrappers
  import opened Text
  import opened Devices

  /** What running one adb command gives: its exit code, standard output and standard
      error, or the message of the exception that starting the process raised. */
  datatype CommandOutcome =
    | Ran(exitCode: int, output: string, error: string)
    | Threw(message: string)

  /** The result the command runner synthesises when adb outlives its timeout. */
  const TimedOut: CommandOutcome := Ran(-1, "", "adb command timed out")

  // ---------------------------------------------------------------------------
  // IsAdbAvailable

  /** IsAdbAvailable, given the outcome of `adb version`: whether adb answered with exit
      code 0, and otherwise the error text it reports. */
  function IsAdbAvailable(version: CommandOutcome): (r: (bool, Option<string>))
    ensures r.0 <==> version.Ran? && version.exitCode == 0
    ensures r.0 <==> r.1 == None
    ensures version.Ran? && version.exitCode != 0 ==>
              r.1 == Some(if IsBlank(version.error) then version.output else version.error)
    ensures version.Threw? ==> r.1 == Some(version.message)
  {
    match version
    case Threw(message) => (false, Some(message))
    case Ran(code, output, error) =>
      if code == 0 then (true, None)
      else (false, Some(if IsBlank(error) then output else error))
  }

  /** A timed-out health check reports adb as unavailable, with the timeout message. */
  lemma TimedOutIsUnavailable()
    ensures IsAdbAvailable(TimedOut) == (false, Some("adb command timed out"))
  {
    assert !IsBlank("adb command timed out") by {
      assert !IsWhiteSpace("adb command timed out"[0]);
    }
  }

  // ---------------------------------------------------------------------------
  // Parsing `adb devices -l`

  const HeaderPrefix: string := "List of devices"
  const ModelTag: string := "model:"

  predicate HasModelTag(token: string) {
    StartsWithIgnoreCase(token, ModelTag)
  }

  /** The text after "model:" in the first token that carries the tag, or "" when none does. */
  function ModelOf(parts: seq<string>): (m: string)
    ensures (forall k :: 0 <= k < |parts| ==> !HasModelTag(parts[k])) ==> m == ""
    ensures forall k :: 0 <= k < |parts| && HasModelTag(parts[k])
                        && (forall j :: 0 <= j < k ==> !HasModelTag(parts[j]))
                        ==> m == parts[k][|ModelTag|..]
  {
    if parts == [] then ""
    else if HasModelTag(parts[0]) then parts[0][|ModelTag|..]
    else ModelOf(parts[1..])
  }

  /** One iteration of the reading loop: the device a raw line stands for, if any. A line
      that is blank, that starts with the header, or that has fewer than two tokens is
      skipped. */
  function ParseLine(raw: string): (r: Option<AndroidDevice>)
    ensures r.Some? ==> IsToken(r.value.serial) && IsToken(r.value.stateRaw)
    ensures var line := Trim(raw);
            r.Some? <==> line != [] && !StartsWithIgnoreCase(line, HeaderPrefix) && |Split(line)| >= 2
    ensures r.Some? ==> var parts := Split(Trim(raw));
            r.value == AndroidDevice(parts[0], ModelOf(parts), parts[1])
  {
    var line := Trim(raw);
    if line == [] || StartsWithIgnoreCase(line, HeaderPrefix) then None
    else
      var parts := Split(line);
      if |parts| < 2 then None
      else Some(AndroidDevice(parts[0], ModelOf(parts), parts[1]))
  }

  /** The devices the lines stand for, in line order. */
  function ParseListing(lines: seq<string>): (ds: seq<AndroidDevice>)
    ensures |ds| <= |lines|
    ensures forall k :: 0 <= k < |ds| ==> IsToken(ds[k].serial) && IsToken(ds[k].stateRaw)
  {
    if lines == [] then []
    else
      var rest := ParseListing(lines[1..]);
      var first := ParseLine(lines[0]);
      if first.None? then rest else [first.value] + rest
  }

  /** GetDevices, given the outcome of `adb devices -l`: a non-zero exit code gives no
      devices, an exception propagates. */
  function ListDevices(listing: CommandOutcome): (r: Result<seq<AndroidDevice>, string>)
    ensures listing.Threw? <==> r.Failure?
    ensures listing.Threw? ==> r.error == listing.message
    ensures listing.Ran? && listing.exitCode != 0 ==> r == Success([])
    ensures listing.Ran? && r.Success? ==> |r.value| <= |Lines(listing.output)|
  {
    match listing
    case Threw(message) => Failure(message)
    case Ran(code, output, _) => if code != 0 then Success([]) else Success(ParseListing(Lines(output)))
  }

  /** GetDevices: reads the listing line by line and collects one device per accepted line. */
  method GetDevices(listing: CommandOutcome) returns (r: Result<seq<AndroidDevice>, string>)
    ensures r == ListDevices(listing)
  {
    if listing.Threw? {
      return Failure(listing.message);
    }
    if listing.exitCode != 0 {
      return Success([]);
    }
    var text := listing.output;
    var devices: seq<AndroidDevice> := [];
    var pos := 0;
    var next := ReadLine(text, pos);
    ghost var all := ParseListing(Lines(text));
    while next.Some?
      invariant pos <= |text|
      invariant next == ReadLine(text, pos)
      invariant devices + ParseListing(LinesFrom(text, pos)) == all
      decreases |text| - pos
    {
      ghost var before := pos;
      var raw := next.value.0;
      pos := next.value.1;
      next := ReadLine(text, pos);
      ParseListingStep(text, before);
      var line := Trim(raw);
      if line != [] && !StartsWithIgnoreCase(line, HeaderPrefix) {
        var parts := Split(line);
        if |parts| >= 2 {
          var serial := parts[0];
          var state := parts[1];
          var model := ModelOf(parts);
          AppendAssoc(devices, [AndroidDevice(serial, model, state)], ParseListing(LinesFrom(text, pos)));
          devices := devices + [AndroidDevice(serial, model, state)];
        }
      }
    }
    assert LinesFrom(text, pos) == [];
    assert devices + [] == devices;
    assert all == ParseListing(Lines(listing.output));
    return Success(devices);
  }

  /** Reading one more line adds that line's device, if any, in front of the rest. */
  lemma ParseListingStep(text: string, pos: nat)
    requires pos <= |text| && ReadLine(text, pos).Some?
    ensures var (line, next) := ReadLine(text, pos).value;
            ParseListing(LinesFrom(text, pos))
            == (if ParseLine(line).None? then [] else [ParseLine(line).value]) + ParseListing(LinesFrom(text, next))
  {
    var (line, next) := ReadLine(text, pos).value;
    var lines := LinesFrom(text, pos);
    assert lines == [line] + LinesFrom(text, next);
    assert lines[0] == line && lines[1..] == LinesFrom(text, next);
  }

  /** The parse of two blocks of lines is the parse of the first followed by that of the
      second: devices come out in line order. */
  lemma {:induction false} ParseListingAppend(a: seq<string>, b: seq<string>)
    ensures ParseListing(a + b) == ParseListing(a) + ParseListing(b)
  {
    if a == [] {
      assert a + b == b;
    } else {
      assert (a + b)[1..] == a[1..] + b;
      ParseListingAppend(a[1..], b);
    }
  }

  /** A line that is blank after trimming, or that starts with the header in any case,
      never yields a device. */
  lemma SkippedLine(raw: string)
    requires IsBlank(raw) || StartsWithIgnoreCase(Trim(raw), HeaderPrefix)
    ensures ParseLine(raw) == None
  {
  }

  /** A listing whose lines are all headers or blanks holds no devices. */
  lemma {:induction false} NoValidLinesNoDevices(lines: seq<string>)
    requires forall k :: 0 <= k < |lines| ==>
               IsBlank(lines[k]) || StartsWithIgnoreCase(Trim(lines[k]), HeaderPrefix)
    ensures ParseListing(lines) == []
  {
    if lines != [] {
      SkippedLine(lines[0]);
      NoValidLinesNoDevices(lines[1..]);
    }
  }

  /** A line written as space-separated tokens, at least two of them, is read back as the
      device whose serial and state are the first two tokens, unless it reads as a header. */
  lemma ParseWordsLine(tokens: seq<string>)
    requires |tokens| >= 2
    requires forall k :: 0 <= k < |tokens| ==> IsToken(tokens[k])
    requires !StartsWithIgnoreCase(JoinWords(tokens), HeaderPrefix)
    ensures ParseLine(JoinWords(tokens)) == Some(AndroidDevice(tokens[0], ModelOf(tokens), tokens[1]))
  {
    JoinWordsEnds(tokens);
    TrimOfTrimmed(JoinWords(tokens));
    SplitJoinWords(tokens);
  }

  /** Joined tokens neither start nor end with white space. */
  lemma {:induction false} JoinWordsEnds(tokens: seq<string>)
    requires |tokens| >= 1
    requires forall k :: 0 <= k < |tokens| ==> IsToken(tokens[k])
    ensures var s := JoinWords(tokens);
            s != [] && !IsWhiteSpace(s[0]) && !IsWhiteSpace(s[|s| - 1])
  {
    var t := tokens[0];
    assert IsToken(t);
    if |tokens| > 1 {
      JoinWordsEnds(tokens[1..]);
      var rest := JoinWords(tokens[1..]);
      assert JoinWords(tokens) == t + " " + rest;
    }
  }

  // ---------------------------------------------------------------------------
  // GetHighLevelState

  /** The switch over a lone device's raw state token; any unknown token counts as offline. */
  function StateOfToken(raw: string): (s: DeviceState)
    ensures s == Unauthorized <==> raw == "unauthorized"
    ensures s == Connected <==> raw == "device"
    ensures s == Offline <==> raw != "unauthorized" && raw != "device"
  {
    match raw
    case "unauthorized" => Unauthorized
    case "offline" => Offline
    case "device" => Connected
    case _ => Offline
  }

  /** What one poll produces: a state with its primary device, or the message of an
      exception that escaped classification (the poll loop swallows it). */
  datatype Classification =
    | Classified(state: DeviceState, primary: Option<AndroidDevice>)
    | PollFailed(message: string)

  /** GetHighLevelState, given the outcomes of `adb version`, `adb start-server` and
      `adb devices -l` in the order it runs them. */
  function GetHighLevelState(version: CommandOutcome, startServer: CommandOutcome, listing: CommandOutcome)
    : (r: Classification)
    ensures r.Classified? ==> r.state != Mirroring && r.state != ScrcpyNotAvailable
    ensures r == Classified(AdbNotAvailable, None) <==> !IsAdbAvailable(version).0
    ensures r.Classified? && r.state == AdbNotAvailable ==> r.primary == None
    ensures r == Classified(NoDevice, None) <==>
              IsAdbAvailable(version).0 && startServer.Ran? && ListDevices(listing) == Success([])
    ensures r.Classified? && r.state == NoDevice ==> r.primary == None
    ensures r.Classified? && r.state == MultipleDevices <==>
              IsAdbAvailable(version).0 && startServer.Ran?
              && ListDevices(listing).Success? && |ListDevices(listing).value| > 1
    ensures r.Classified? && r.state != AdbNotAvailable && r.state != NoDevice ==>
              ListDevices(listing).Success? && |ListDevices(listing).value| >= 1
              && r.primary == Some(ListDevices(listing).value[0])
    ensures r.Classified? && ListDevices(listing).Success? && |ListDevices(listing).value| == 1
              && r.state != AdbNotAvailable ==>
              r.state == StateOfToken(ListDevices(listing).value[0].stateRaw)
    ensures r.PollFailed? <==>
              IsAdbAvailable(version).0 && (startServer.Threw? || listing.Threw?)
    ensures r.Classified? && r.primary.Some? ==> IsToken(r.primary.value.serial)
  {
    if !IsAdbAvailable(version).0 then Classified(AdbNotAvailable, None)
    else if startServer.Threw? then PollFailed(startServer.message)
    else
      match ListDevices(listing)
      case Failure(message) => PollFailed(message)
      case Success(devices) =>
        if |devices| == 0 then Classified(NoDevice, None)
        else if |devices| > 1 then Classified(MultipleDevices, Some(devices[0]))
        else Classified(StateOfToken(devices[0].stateRaw), Some(devices[0]))
  }

  /** With two or more devices listed, the first one is the primary: the devices after
      it and the listing's standard error never matter. */
  lemma MultipleDevicesPicksFirst(version: CommandOutcome, startServer: CommandOutcome,
                                  output: string, more: string)
    requires IsAdbAvailable(version).0 && startServer.Ran?
    requires |ParseListing(Lines(output))| >= 2
    ensures GetHighLevelState(version, startServer, Ran(0, output, more))
         == Classified(MultipleDevices, Some(ParseListing(Lines(output))[0]))
  {
  }

  /** A successful listing with only headers and blank lines classifies as NoDevice. */
  lemma EmptyListingIsNoDevice(version: CommandOutcome, startServer: CommandOutcome, output: string, err: string)
    requires IsAdbAvailable(version).0 && startServer.Ran?
    requires forall k :: 0 <= k < |Lines(output)| ==>
               IsBlank(Lines(output)[k]) || StartsWithIgnoreCase(Trim(Lines(output)[k]), HeaderPrefix)
    ensures GetHighLevelState(version, startServer, Ran(0, output, err)) == Classified(NoDevice, None)
  {
    NoValidLinesNoDevices(Lines(output));
  }

  // ---------------------------------------------------------------------------
  // ResolveAdbPath (the selection among candidates)

  /** The tail of ResolveAdbPath: an explicit path that is not blank and exists wins;
      otherwise the first existing candidate in list order; otherwise the bare "adb".
      How the candidate list is assembled from the environment is not modelled. */
  method ResolveAdbPath(explicitPath: Option<string>, candidates: seq<string>, fileExists: string -> bool)
    returns (path: string)
    ensures !IsNullOrBlank(explicitPath) && fileExists(explicitPath.value) ==> path == explicitPath.value
    ensures !(!IsNullOrBlank(explicitPath) && fileExists(explicitPath.value)) ==>
              if exists k :: 0 <= k < |candidates| && fileExists(candidates[k]) then
                exists k :: 0 <= k < |candidates| && candidates[k] == path && fileExists(path)
                            && forall j :: 0 <= j < k ==> !fileExists(candidates[j])
              else path == "adb"
  {
    if !IsNullOrBlank(explicitPath) && fileExists(explicitPath.value) {
      return explicitPath.value;
    }
    for i := 0 to |candidates|
      invariant forall j :: 0 <= j < i ==> !fileExists(candidates[j])
    {
      if fileExists(candidates[i]) {
        return candidates[i];
      }
    }
    return "adb";
  }
}
