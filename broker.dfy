/** The screen-capture permission broker of the desktop host process
    (src-electron/electron-main.ts): the permission probe, the three-button
    permission prompt and the request handlers built on them.

    Every call into the operating system is an oracle held by the host.
    The host keeps a log of the calls it has made, and a call made when
    the log holds n entries is answered by the oracle at n: a
    `desktopCapturer.getSources` call yields `env.capture(n)`, a permission
    prompt is answered with button `env.response(n)`, a save dialog with
    `env.saveAnswer(n)`. What a request does is visible in the log, and
    its answers depend only on where in the process's history it runs.

    The pure functions (`CheckRun`, `PromptRun`, `GetSourcesRun`, ...) are
    the model, and the lemmas are about them; the methods of `HostProcess`
    are the effectful rendering of the same handlers, each proved to return
    its function's value and append its function's calls to the log. */
module Broker {
  import opened Wrappers

  const Darwin := "darwin"

  const NoSourcesMessage := "No screen sources available. Please grant screen recording permission."
  const DeniedMessage := "Screen recording permission denied. Please grant permission in System Preferences."
  const PermissionRequiredMessage := "Screen recording permission required"
  const StillNotGrantedMessage := "Screen recording permission still not granted. Please restart the app after granting permission."
  const GetSourcesPrefix := "Failed to get sources: "
  const UnknownErrorMessage := "Unknown error"
  const CaptureDeniedMessage := "Screen recording permission denied."
  const SaveFailedMessage := "Failed to save video file"
  const SettingsLink := "x-apple.systempreferences:com.apple.preference.security?Privacy_ScreenCapture"

  /** Indices of the prompt's buttons: 'Open System Preferences', 'Cancel',
      'I've Already Done This'. */
  const OpenSettingsButton := 0
  const AlreadyDoneButton := 2

  /** A native image; only its data-URL encoding is observable. */
  datatype NativeImage = NativeImage(dataUrl: string)

  /** A source as the capture API reports it. */
  datatype NativeSource = NativeSource(
    id: string, name: string, thumbnail: NativeImage, displayId: string, appIcon: Option<NativeImage>)

  /** A source as the handler hands it to the UI (`display_id` on the wire). */
  datatype SourceRecord = SourceRecord(
    id: string, name: string, thumbnail: string, displayId: string, appIcon: Option<string>)

  /** What one `getSources` call produces: a list of sources, or a thrown
      value (`Some(message)` for an Error, `None` for anything else). */
  datatype CaptureOutcome = Listed(sources: seq<NativeSource>) | Threw(error: Option<string>)

  /** `{hasPermission, message?}` */
  datatype Permission = Permission(hasPermission: bool, message: Option<string>)

  /** What the save dialog answers: a chosen path, no path (cancelled), or
      a failure of the dialog itself. */
  datatype SaveAnswer = Picked(filePath: string) | Dismissed | DialogFailed

  /** The calls into the operating system that the log records. */
  datatype Effect =
    | Probe                    // getSources of screens with a 1x1 thumbnail
    | Enumerate                // getSources of windows and screens, 150x150 thumbnails, icons
    | ShowPrompt               // the three-button permission message box
    | OpenExternal(url: string)
    | ShowSaveDialog

  /** The host's oracles and the platform it runs on. */
  datatype Env = Env(
    platform: string,
    capture: nat -> CaptureOutcome,
    response: nat -> int,
    saveAnswer: nat -> SaveAnswer,
    writeFails: string -> bool)

  datatype Kind = Probes | Enumerations | Prompts

  predicate OfKind(e: Effect, k: Kind) {
    match k
    case Probes => e.Probe?
    case Enumerations => e.Enumerate?
    case Prompts => e.ShowPrompt?
  }

  /** The number of calls of kind `k` in a log. */
  function Count(log: seq<Effect>, k: Kind): nat {
    if log == [] then 0
    else Count(log[..|log| - 1], k) + (if OfKind(log[|log| - 1], k) then 1 else 0)
  }

  lemma {:induction false} CountAppend(a: seq<Effect>, b: seq<Effect>, k: Kind)
    ensures Count(a + b, k) == Count(a, k) + Count(b, k)
    decreases |b|
  {
    if b == [] {
      assert a + b == a;
    } else {
      var b' := b[..|b| - 1];
      assert (a + b)[..|a + b| - 1] == a + b';
      CountAppend(a, b', k);
    }
  }

  /** `x || fallback` on an optional string, with JavaScript truthiness. */
  function MessageOr(m: Option<string>, fallback: string): string {
    if m.Some? && m.value != "" then m.value else fallback
  }

  /** The result a probe outcome stands for on the gated platform. */
  function Verdict(o: CaptureOutcome): Permission {
    match o
    case Listed(sources) =>
      if |sources| > 0 then Permission(true, None)
      else Permission(false, Some(NoSourcesMessage))
    case Threw(_) => Permission(false, Some(DeniedMessage))
  }

  function ToRecord(s: NativeSource): SourceRecord {
    SourceRecord(s.id, s.name, s.thumbnail.dataUrl, s.displayId,
                 if s.appIcon.Some? then Some(s.appIcon.value.dataUrl) else None)
  }

  /** `sources.map(...)`: one record per source, in the same order. */
  function ToRecords(sources: seq<NativeSource>): (records: seq<SourceRecord>)
    ensures |records| == |sources|
    ensures forall i :: 0 <= i < |sources| ==>
      && records[i].id == sources[i].id
      && records[i].name == sources[i].name
      && records[i].displayId == sources[i].displayId
      && records[i].thumbnail == sources[i].thumbnail.dataUrl
      && (records[i].appIcon.None? <==> sources[i].appIcon.None?)
      && (sources[i].appIcon.Some? ==> records[i].appIcon == Some(sources[i].appIcon.value.dataUrl))
  {
    if sources == [] then [] else [ToRecord(sources[0])] + ToRecords(sources[1..])
  }

  /** What an operation returns, with the calls it made in order. */
  datatype Run<T> = Run(value: T, effects: seq<Effect>)

  /** `checkScreenRecordingPermission` after the calls in `log`. */
  function CheckRun(env: Env, log: seq<Effect>): Run<Permission> {
    if env.platform != Darwin then Run(Permission(true, None), [])
    else Run(Verdict(env.capture(|log|)), [Probe])
  }

  /** `promptForScreenRecordingPermission` after the calls in `log`. */
  function PromptRun(env: Env, log: seq<Effect>): Run<bool> {
    if env.platform != Darwin then Run(true, [])
    else
      var button := env.response(|log|);
      if button == OpenSettingsButton then Run(false, [ShowPrompt, OpenExternal(SettingsLink)])
      else if button == AlreadyDoneButton then
        var check := CheckRun(env, log + [ShowPrompt]);
        Run(check.value.hasPermission, [ShowPrompt] + check.effects)
      else Run(false, [ShowPrompt])
  }

  /** The full enumeration of the `get-sources` handler after `log`. */
  function EnumerateRun(env: Env, log: seq<Effect>): Run<Result<seq<SourceRecord>>> {
    match env.capture(|log|)
    case Listed(sources) => Run(Success(ToRecords(sources)), [Enumerate])
    case Threw(e) => Run(Failure(GetSourcesPrefix + e.GetOr(UnknownErrorMessage)), [Enumerate])
  }

  /** The `get-sources` handler: probe, then the enumeration when it
      granted, or the prompt when it did not. */
  function GetSourcesRun(env: Env, log: seq<Effect>): Run<Result<seq<SourceRecord>>> {
    var first := CheckRun(env, log);
    var rest := if first.value.hasPermission then EnumerateRun(env, log + first.effects)
                else PromptedRun(env, log + first.effects, first.value.message);
    Run(rest.value, first.effects + rest.effects)
  }

  /** The rest of `get-sources` after a denied first probe: the prompt, and
      on success the follow-up probe; a failed prompt rejects with the first
      probe's message. */
  function PromptedRun(env: Env, log: seq<Effect>, firstMessage: Option<string>): Run<Result<seq<SourceRecord>>> {
    var prompt := PromptRun(env, log);
    var rest := if !prompt.value then Run(Failure(GetSourcesPrefix + MessageOr(firstMessage, PermissionRequiredMessage)), [])
                else RecheckedRun(env, log + prompt.effects);
    Run(rest.value, prompt.effects + rest.effects)
  }

  /** The rest of `get-sources` after a successful prompt: the follow-up
      probe, then the enumeration or the restart guidance. */
  function RecheckedRun(env: Env, log: seq<Effect>): Run<Result<seq<SourceRecord>>> {
    var recheck := CheckRun(env, log);
    var rest := if !recheck.value.hasPermission then Run(Failure(GetSourcesPrefix + StillNotGrantedMessage), [])
                else EnumerateRun(env, log + recheck.effects);
    Run(rest.value, recheck.effects + rest.effects)
  }

  /** The `get-desktop-capturer-source` handler. */
  function CapturerSourceRun(env: Env, log: seq<Effect>, sourceId: string): Run<Result<string>> {
    var check := CheckRun(env, log);
    if check.value.hasPermission then Run(Success(sourceId), check.effects)
    else Run(Failure(CaptureDeniedMessage), check.effects)
  }

  /** What the `save-video` handler returns and the files it leaves. */
  datatype SaveRun = SaveRun(value: Result<Option<string>>, files: map<string, seq<bv8>>)

  /** The `save-video` handler; it always shows one save dialog. */
  function SaveVideoRun(env: Env, log: seq<Effect>, files: map<string, seq<bv8>>, buffer: seq<bv8>): SaveRun {
    match env.saveAnswer(|log|)
    case DialogFailed => SaveRun(Failure(SaveFailedMessage), files)
    case Dismissed => SaveRun(Success(None), files)
    case Picked(path) =>
      if path == "" then SaveRun(Success(None), files)
      else if env.writeFails(path) then SaveRun(Failure(SaveFailedMessage), files)
      else SaveRun(Success(Some(path)), files[path := buffer])
  }

  /** The host process: its oracles, the calls it has made and the files
      it has written. */
  class HostProcess {
    const env: Env
    var log: seq<Effect>
    var files: map<string, seq<bv8>>

    constructor (env: Env, files: map<string, seq<bv8>>)
      ensures this.env == env && this.files == files && log == []
    {
      this.env := env;
      this.files := files;
      log := [];
    }

    /** `checkScreenRecordingPermission` */
    method CheckPermission() returns (p: Permission)
      modifies this`log
      ensures var run := CheckRun(env, old(log)); p == run.value && log == old(log) + run.effects
    {
      if env.platform != Darwin {
        return Permission(true, None);
      }
      var outcome := env.capture(|log|);
      log := log + [Probe];
      p := Verdict(outcome);
    }

    /** `promptForScreenRecordingPermission` */
    method PromptForPermission() returns (granted: bool)
      modifies this`log
      ensures var run := PromptRun(env, old(log)); granted == run.value && log == old(log) + run.effects
    {
      if env.platform != Darwin {
        return true;
      }
      var button := env.response(|log|);
      log := log + [ShowPrompt];
      if button == OpenSettingsButton {
        log := log + [OpenExternal(SettingsLink)];
        return false;
      } else if button == AlreadyDoneButton {
        var check := CheckPermission();
        return check.hasPermission;
      }
      return false;
    }

    /** The `get-sources` handler. */
    method GetSources() returns (r: Result<seq<SourceRecord>>)
      modifies this`log
      ensures var run := GetSourcesRun(env, old(log)); r == run.value && log == old(log) + run.effects
    {
      ghost var log0 := log;
      var check := CheckPermission();
      ghost var log1 := log;
      if !check.hasPermission {
        r := Prompted(check.message);
      } else {
        r := Enumeration();
      }
      assert log0 + (log1[|log0|..] + log[|log1|..]) == log0 + log1[|log0|..] + log[|log1|..];
    }

    /** The handler's branch for a denied first probe. */
    method Prompted(firstMessage: Option<string>) returns (r: Result<seq<SourceRecord>>)
      modifies this`log
      ensures var run := PromptedRun(env, old(log), firstMessage); r == run.value && log == old(log) + run.effects
    {
      var userGranted := PromptForPermission();
      if !userGranted {
        return Failure(GetSourcesPrefix + MessageOr(firstMessage, PermissionRequiredMessage));
      }
      r := Rechecked();
    }

    /** The handler's follow-up probe after a successful prompt. */
    method Rechecked() returns (r: Result<seq<SourceRecord>>)
      modifies this`log
      ensures var run := RecheckedRun(env, old(log)); r == run.value && log == old(log) + run.effects
    {
      var recheck := CheckPermission();
      if !recheck.hasPermission {
        return Failure(GetSourcesPrefix + StillNotGrantedMessage);
      }
      r := Enumeration();
    }

    /** The full enumeration and the mapping of its sources. */
    method Enumeration() returns (r: Result<seq<SourceRecord>>)
      modifies this`log
      ensures var run := EnumerateRun(env, old(log)); r == run.value && log == old(log) + run.effects
    {
      var outcome := env.capture(|log|);
      log := log + [Enumerate];
      match outcome
      case Listed(sources) => r := Success(ToRecords(sources));
      case Threw(e) => r := Failure(GetSourcesPrefix + e.GetOr(UnknownErrorMessage));
    }

    /** The `get-desktop-capturer-source` handler. */
    method GetDesktopCapturerSource(sourceId: string) returns (r: Result<string>)
      modifies this`log
      ensures var run := CapturerSourceRun(env, old(log), sourceId); r == run.value && log == old(log) + run.effects
    {
      var check := CheckPermission();
      if !check.hasPermission {
        return Failure(CaptureDeniedMessage);
      }
      return Success(sourceId);
    }

    /** The `save-video` handler. */
    method SaveVideo(buffer: seq<bv8>) returns (r: Result<Option<string>>)
      modifies this`log, this`files
      ensures var run := SaveVideoRun(env, old(log), old(files), buffer);
              r == run.value && files == run.files && log == old(log) + [ShowSaveDialog]
    {
      var answer := env.saveAnswer(|log|);
      log := log + [ShowSaveDialog];
      match answer
      case DialogFailed =>
        return Failure(SaveFailedMessage);
      case Dismissed =>
        return Success(None);
      case Picked(path) =>
        if path == "" {
          return Success(None);
        }
        if env.writeFails(path) {
          return Failure(SaveFailedMessage);
        }
        files := files[path := buffer];
        return Success(Some(path));
    }

    /** The `check-screen-permission` handler. */
    method HandleCheckScreenPermission() returns (p: Permission)
      modifies this`log
      ensures var run := CheckRun(env, old(log)); p == run.value && log == old(log) + run.effects
    {
      p := CheckPermission();
    }

    /** The `request-screen-permission` handler. */
    method HandleRequestScreenPermission() returns (granted: bool)
      modifies this`log
      ensures var run := PromptRun(env, old(log)); granted == run.value && log == old(log) + run.effects
    {
      granted := PromptForPermission();
    }
  }

  // ---------------------------------------------------------------------
  // Properties of the permission check

  /** A probe grants exactly when it lists a source; a denial always
      carries a message, and which message tells the two causes apart. */
  lemma VerdictCases(o: CaptureOutcome)
    ensures Verdict(o).hasPermission <==> o.Listed? && |o.sources| > 0
    ensures Verdict(o).hasPermission <==> Verdict(o).message.None?
    ensures o.Listed? && |o.sources| == 0 ==> Verdict(o).message == Some(NoSourcesMessage)
    ensures o.Threw? ==> Verdict(o).message == Some(DeniedMessage)
  {
  }

  /** Off the gated platform the check grants without probing and the
      prompt succeeds without showing anything. */
  lemma UngatedPlatformGrants(env: Env, log: seq<Effect>)
    requires env.platform != Darwin
    ensures CheckRun(env, log) == Run(Permission(true, None), [])
    ensures PromptRun(env, log) == Run(true, [])
  {
  }

  /** On the gated platform the check makes one probe, and its result
      depends on nothing but that probe's outcome. */
  lemma CheckDependsOnlyOnProbe(env1: Env, log1: seq<Effect>, env2: Env, log2: seq<Effect>)
    requires env1.platform == Darwin && env2.platform == Darwin
    requires env1.capture(|log1|) == env2.capture(|log2|)
    ensures CheckRun(env1, log1) == CheckRun(env2, log2)
    ensures CheckRun(env1, log1).effects == [Probe]
  {
  }

  /** On the gated platform the prompt is shown once; the settings button
      opens the deep link and fails, 'already done' returns the result of
      exactly one re-probe, and every other answer fails. */
  lemma PromptByButton(env: Env, log: seq<Effect>)
    requires env.platform == Darwin
    ensures var run := PromptRun(env, log);
            var button := env.response(|log|);
            && Count(run.effects, Prompts) == 1
            && (button == OpenSettingsButton ==> !run.value && run.effects == [ShowPrompt, OpenExternal(SettingsLink)])
            && (button == AlreadyDoneButton ==>
                  run.value == Verdict(env.capture(|log| + 1)).hasPermission &&
                  run.effects == [ShowPrompt, Probe])
            && (button != OpenSettingsButton && button != AlreadyDoneButton ==> !run.value && run.effects == [ShowPrompt])
  {
  }

  /** The deep link is opened exactly when the settings button is pressed
      on the gated platform. */
  lemma SettingsOpenedOnlyByButtonZero(env: Env, log: seq<Effect>)
    ensures OpenExternal(SettingsLink) in PromptRun(env, log).effects <==>
            env.platform == Darwin && env.response(|log|) == OpenSettingsButton
  {
  }

  // ---------------------------------------------------------------------
  // Properties of the get-sources handler

  /** A denied first probe followed by a prompt that does not succeed
      rejects with the first probe's own message, and nothing is
      enumerated. */
  lemma RejectedPromptKeepsFirstMessage(env: Env, log: seq<Effect>)
    requires !CheckRun(env, log).value.hasPermission
    requires !PromptRun(env, log + CheckRun(env, log).effects).value
    ensures CheckRun(env, log).value.message.Some?
    ensures GetSourcesRun(env, log).value == Failure(GetSourcesPrefix + CheckRun(env, log).value.message.value)
    ensures Count(GetSourcesRun(env, log).effects, Enumerations) == 0
  {
    var first := CheckRun(env, log);
    var log1 := log + first.effects;
    var prompt := PromptRun(env, log1);
    VerdictCases(env.capture(|log|));
    var rest := PromptedRun(env, log1, first.value.message);
    assert rest.effects == prompt.effects + [];
    CheckCounts(env, log);
    PromptEffectsNoEnumerate(env, log1);
    CountAppend(first.effects, rest.effects, Enumerations);
  }

  /** A prompt never enumerates and never probes more than once. */
  lemma PromptEffectsNoEnumerate(env: Env, log: seq<Effect>)
    ensures Count(PromptRun(env, log).effects, Enumerations) == 0
    ensures Count(PromptRun(env, log).effects, Probes) <= 1
    ensures Count(PromptRun(env, log).effects, Prompts) <= 1
    ensures |PromptRun(env, log).effects| <= 2
  {
    var run := PromptRun(env, log);
    if env.platform == Darwin {
      PromptByButton(env, log);
      assert [ShowPrompt][..0] == [];
      if run.effects == [ShowPrompt, OpenExternal(SettingsLink)] {
        assert run.effects[..1] == [ShowPrompt];
      } else if run.effects == [ShowPrompt, Probe] {
        assert run.effects[..1] == [ShowPrompt];
      }
    }
  }

  /** When the prompt reports success but the follow-up probe is still
      denied, the handler rejects with the restart guidance. */
  lemma FollowUpDenialAsksForRestart(env: Env, log: seq<Effect>)
    requires !CheckRun(env, log).value.hasPermission
    requires PromptRun(env, log + CheckRun(env, log).effects).value
    requires var log2 := log + CheckRun(env, log).effects + PromptRun(env, log + CheckRun(env, log).effects).effects;
             !CheckRun(env, log2).value.hasPermission
    ensures GetSourcesRun(env, log).value == Failure(GetSourcesPrefix + StillNotGrantedMessage)
  {
  }

  /** The retry scenario: a denied probe, 'already done', a granting
      re-probe and a granting follow-up probe lead to the enumeration after
      exactly three probes and one prompt. */
  lemma RetryThenGranted(env: Env, log: seq<Effect>)
    requires env.platform == Darwin
    requires !Verdict(env.capture(|log|)).hasPermission
    requires env.response(|log| + 1) == AlreadyDoneButton
    requires Verdict(env.capture(|log| + 2)).hasPermission
    requires Verdict(env.capture(|log| + 3)).hasPermission
    ensures GetSourcesRun(env, log).effects == [Probe, ShowPrompt, Probe, Probe, Enumerate]
    ensures GetSourcesRun(env, log).value == EnumerateRun(env, log + [Probe, ShowPrompt, Probe, Probe]).value
  {
    var l1 := log + [Probe];
    var prompt := PromptRun(env, l1);
    assert prompt.value && prompt.effects == [ShowPrompt, Probe];
    var l3 := l1 + prompt.effects;
    var recheck := RecheckedRun(env, l3);
    assert recheck.effects == [Probe] + EnumerateRun(env, l3 + [Probe]).effects;
    assert l3 + [Probe] == log + [Probe, ShowPrompt, Probe, Probe];
  }

  /** The retry scenario with a denying re-probe: the prompt fails, so the
      handler rejects after two probes with the first probe's message and
      never makes the follow-up probe. */
  lemma RetryThenDenied(env: Env, log: seq<Effect>)
    requires env.platform == Darwin
    requires !Verdict(env.capture(|log|)).hasPermission
    requires env.response(|log| + 1) == AlreadyDoneButton
    requires !Verdict(env.capture(|log| + 2)).hasPermission
    ensures GetSourcesRun(env, log).effects == [Probe, ShowPrompt, Probe]
    ensures GetSourcesRun(env, log).value ==
            Failure(GetSourcesPrefix + Verdict(env.capture(|log|)).message.value)
  {
    VerdictCases(env.capture(|log|));
    var l1 := log + [Probe];
    var prompt := PromptRun(env, l1);
    assert !prompt.value && prompt.effects == [ShowPrompt, Probe];
    var prompted := PromptedRun(env, l1, Verdict(env.capture(|log|)).message);
    assert prompted.effects == prompt.effects + [];
  }

  /** A check makes at most one call, a probe. */
  lemma CheckCounts(env: Env, log: seq<Effect>)
    ensures var e := CheckRun(env, log).effects;
            Count(e, Probes) <= 1 && Count(e, Prompts) == 0 && Count(e, Enumerations) == 0 && |e| <= 1
  {
    assert [Probe][..0] == [];
  }

  /** An enumeration makes exactly one call. */
  lemma EnumerateCounts(env: Env, log: seq<Effect>)
    ensures var e := EnumerateRun(env, log).effects;
            Count(e, Probes) == 0 && Count(e, Prompts) == 0 && Count(e, Enumerations) == 1 && |e| == 1
  {
    assert [Enumerate][..0] == [];
  }

  lemma CountAppendAll(a: seq<Effect>, b: seq<Effect>)
    ensures Count(a + b, Probes) == Count(a, Probes) + Count(b, Probes)
    ensures Count(a + b, Prompts) == Count(a, Prompts) + Count(b, Prompts)
    ensures Count(a + b, Enumerations) == Count(a, Enumerations) + Count(b, Enumerations)
  {
    CountAppend(a, b, Probes);
    CountAppend(a, b, Prompts);
    CountAppend(a, b, Enumerations);
  }

  lemma RecheckedBounded(env: Env, log: seq<Effect>)
    ensures var e := RecheckedRun(env, log).effects;
            Count(e, Probes) <= 1 && Count(e, Prompts) == 0 && Count(e, Enumerations) <= 1 && |e| <= 2
  {
    var recheck := CheckRun(env, log);
    CheckCounts(env, log);
    if recheck.value.hasPermission {
      EnumerateCounts(env, log + recheck.effects);
      CountAppendAll(recheck.effects, EnumerateRun(env, log + recheck.effects).effects);
    } else {
      assert RecheckedRun(env, log).effects == recheck.effects;
    }
  }

  lemma PromptedBounded(env: Env, log: seq<Effect>, firstMessage: Option<string>)
    ensures var e := PromptedRun(env, log, firstMessage).effects;
            Count(e, Probes) <= 2 && Count(e, Prompts) <= 1 && Count(e, Enumerations) <= 1 && |e| <= 4
  {
    var prompt := PromptRun(env, log);
    PromptEffectsNoEnumerate(env, log);
    if prompt.value {
      RecheckedBounded(env, log + prompt.effects);
      CountAppendAll(prompt.effects, RecheckedRun(env, log + prompt.effects).effects);
    } else {
      assert PromptedRun(env, log, firstMessage).effects == prompt.effects;
    }
  }

  /** One request makes at most three probes, one prompt and one
      enumeration, and never more than five calls in all: there is no loop. */
  lemma GetSourcesBounded(env: Env, log: seq<Effect>)
    ensures var run := GetSourcesRun(env, log);
            && Count(run.effects, Probes) <= 3
            && Count(run.effects, Prompts) <= 1
            && Count(run.effects, Enumerations) <= 1
            && |run.effects| <= 5
  {
    var first := CheckRun(env, log);
    var log1 := log + first.effects;
    CheckCounts(env, log);
    if first.value.hasPermission {
      EnumerateCounts(env, log1);
      CountAppendAll(first.effects, EnumerateRun(env, log1).effects);
    } else {
      PromptedBounded(env, log1, first.value.message);
      CountAppendAll(first.effects, PromptedRun(env, log1, first.value.message).effects);
    }
  }

  /** With permission granted by the first probe the handler never prompts
      and never rejects with a permission message: it returns the mapped
      enumeration, or the enumeration's own error. */
  lemma GrantedGoesStraightToEnumeration(env: Env, log: seq<Effect>)
    requires CheckRun(env, log).value.hasPermission
    ensures var run := GetSourcesRun(env, log);
            var listing := EnumerateRun(env, log + CheckRun(env, log).effects);
            && run.value == listing.value
            && ShowPrompt !in run.effects
            && Enumerate in run.effects
  {
  }

  /** The handler resolves only after a check that granted: either the
      first probe, or the follow-up probe after a successful prompt; it
      never resolves with a list when permission was denied. */
  lemma SuccessOnlyAfterGrant(env: Env, log: seq<Effect>)
    requires GetSourcesRun(env, log).value.Success?
    ensures var first := CheckRun(env, log);
            var log1 := log + first.effects;
            var prompt := PromptRun(env, log1);
            || first.value.hasPermission
            || (prompt.value && CheckRun(env, log1 + prompt.effects).value.hasPermission)
    ensures Enumerate in GetSourcesRun(env, log).effects
  {
  }

  /** On success the records are the enumeration's sources mapped one by
      one, in the operating system's order. */
  lemma EnumerationMapsSources(env: Env, log: seq<Effect>)
    requires env.capture(|log|).Listed?
    ensures var sources := env.capture(|log|).sources;
            var rs := EnumerateRun(env, log).value;
            && rs.Success?
            && |rs.value| == |sources|
            && forall i :: 0 <= i < |sources| ==> rs.value[i] == ToRecord(sources[i])
  {
    var sources := env.capture(|log|).sources;
    ToRecordsAt(sources);
  }

  lemma {:induction false} ToRecordsAt(sources: seq<NativeSource>)
    ensures forall i :: 0 <= i < |sources| ==> ToRecords(sources)[i] == ToRecord(sources[i])
  {
    if sources != [] {
      ToRecordsAt(sources[1..]);
      assert forall i :: 1 <= i < |sources| ==> ToRecords(sources)[i] == ToRecords(sources[1..])[i - 1];
    }
  }

  // ---------------------------------------------------------------------
  // Properties of the gate-then-act handlers

  /** The capturer-source handler echoes the id when permission is
      granted and otherwise rejects with the fixed denial. */
  lemma CapturerSourceGate(env: Env, log: seq<Effect>, sourceId: string)
    ensures var run := CapturerSourceRun(env, log, sourceId);
            && (run.value.Success? <==> CheckRun(env, log).value.hasPermission)
            && (run.value.Success? ==> run.value.value == sourceId)
            && (run.value.Failure? ==> run.value.error == CaptureDeniedMessage)
  {
  }

  /** The save handler writes the bytes verbatim to a chosen path and
      returns it, returns no path and writes nothing when the user
      cancels, and rejects with the fixed message on any failure, writing
      nothing. */
  lemma SaveVideoOutcomes(env: Env, log: seq<Effect>, files: map<string, seq<bv8>>, buffer: seq<bv8>)
    ensures var run := SaveVideoRun(env, log, files, buffer);
            var answer := env.saveAnswer(|log|);
            && (run.value.Success? && run.value.value.Some? ==>
                  answer == Picked(run.value.value.value) &&
                  run.files == files[run.value.value.value := buffer])
            && (run.value.Success? && run.value.value.None? ==> run.files == files)
            && (run.value.Failure? ==> run.value.error == SaveFailedMessage && run.files == files)
            && (answer.Picked? && answer.filePath != "" && !env.writeFails(answer.filePath) ==>
                  run.value == Success(Some(answer.filePath)))
            && (answer.Dismissed? || answer == Picked("") ==> run.value == Success(None))
            && (answer.DialogFailed? || (answer.Picked? && answer.filePath != "" && env.writeFails(answer.filePath)) ==>
                  run.value == Failure(SaveFailedMessage) && run.files == files)
  {
  }
}
