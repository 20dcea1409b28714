/** Permission axes: the antigravity ceiling, the resume snapshot that overwrites launch
  * values, and the effective network access both sides compare. */
module Permissions {
  import opened Wrappers

  datatype Engine = ClaudeCode | Codex | Antigravity | Grok
  datatype Sandbox = ReadOnly | WorkspaceWrite | DangerFullAccess
  datatype Approval = Untrusted | OnRequest | Local | Never | OnFailure
  datatype PermissionMode = Default | AcceptEdits | Plan | DontAsk | Auto | BypassPermissions
  datatype Source = FromLaunch | FromEnv | FromConfig | FromDefault

  // ---- The ceiling ----------------------------------------------------------

  /** Position in the strict-to-permissive order. */
  function SandboxRank(s: Sandbox): int {
    match s case ReadOnly => 0 case WorkspaceWrite => 1 case DangerFullAccess => 2
  }

  /** `on-failure` is in no order, so the lookup answers -1 for it. */
  function ApprovalRank(a: Approval): int {
    match a case Untrusted => 0 case OnRequest => 1 case Local => 2 case Never => 3 case OnFailure => -1
  }

  function PermissiveMaxApproval(a: Approval, b: Approval): Approval {
    if ApprovalRank(a) >= ApprovalRank(b) then a else b
  }

  function EffectiveNetworkAccess(sandbox: Sandbox, configured: bool): bool {
    match sandbox
    case DangerFullAccess => true
    case ReadOnly => false
    case WorkspaceWrite => configured
  }

  datatype Axis = SandboxAxis | ApprovalAxis | NetworkAxis

  /** The launch values a ceiling is measured against; None takes the wrapper's default. */
  datatype Axes = Axes(sandbox: Option<Sandbox>, approval: Option<Approval>, network: Option<bool>)

  datatype MaxConfig = MaxConfig(maxSandbox: Option<Sandbox>, maxApproval: Option<Approval>, maxNetwork: Option<bool>)

  datatype Ceiling = Ceiling(sandbox: Sandbox, approval: Approval, network: bool)

  datatype Resolution = Resolution(ceiling: Ceiling, conflicts: seq<Axis>)

  function SandboxOf(a: Axes): Sandbox { if a.sandbox.Some? then a.sandbox.value else WorkspaceWrite }
  function ApprovalOf(a: Axes): Approval { if a.approval.Some? then a.approval.value else OnRequest }
  function NetworkOf(a: Axes): bool { if a.network.Some? then a.network.value else false }

  /** Resolves the ceiling axis by axis, collecting the axes whose explicit ceiling is
    * narrower than the launch value. */
  method ResolveAntigravityCeiling(launch: Axes, config: MaxConfig) returns (r: Resolution)
    ensures r == Resolve(launch, config)
  {
    var launchSandbox, launchApproval, launchNetwork := SandboxOf(launch), ApprovalOf(launch), NetworkOf(launch);
    var conflicts: seq<Axis> := [];
    var maxSandbox := launchSandbox;
    if config.maxSandbox.Some? && SandboxRank(config.maxSandbox.value) >= 0 {
      if SandboxRank(config.maxSandbox.value) >= SandboxRank(launchSandbox) {
        maxSandbox := config.maxSandbox.value;
      } else {
        conflicts := conflicts + [SandboxAxis];
      }
    }
    var maxApproval := PermissiveMaxApproval(launchApproval, Local);
    if config.maxApproval.Some? && ApprovalRank(config.maxApproval.value) >= 0 {
      if ApprovalRank(config.maxApproval.value) >= ApprovalRank(launchApproval) {
        maxApproval := config.maxApproval.value;
      } else {
        conflicts := conflicts + [ApprovalAxis];
      }
    }
    var maxNetwork := launchNetwork;
    if config.maxNetwork.Some? {
      if config.maxNetwork.value || !launchNetwork {
        maxNetwork := config.maxNetwork.value;
      } else {
        conflicts := conflicts + [NetworkAxis];
      }
    }
    r := Resolution(Ceiling(maxSandbox, maxApproval, maxNetwork), conflicts);
  }

  /** Whether an explicit ceiling contradicts the launch value on an axis. */
  predicate Contradicts(launch: Axes, config: MaxConfig, axis: Axis) {
    match axis
    case SandboxAxis => config.maxSandbox.Some? && SandboxRank(config.maxSandbox.value) < SandboxRank(SandboxOf(launch))
    case ApprovalAxis =>
      config.maxApproval.Some? && 0 <= ApprovalRank(config.maxApproval.value) < ApprovalRank(ApprovalOf(launch))
    case NetworkAxis => config.maxNetwork == Some(false) && NetworkOf(launch)
  }

  function Resolve(launch: Axes, config: MaxConfig): Resolution {
    Resolution(
      Ceiling(
        if config.maxSandbox.Some? && !Contradicts(launch, config, SandboxAxis)
        then config.maxSandbox.value else SandboxOf(launch),
        if config.maxApproval.Some? && config.maxApproval.value != OnFailure
           && !Contradicts(launch, config, ApprovalAxis)
        then config.maxApproval.value else PermissiveMaxApproval(ApprovalOf(launch), Local),
        if config.maxNetwork.Some? && !Contradicts(launch, config, NetworkAxis)
        then config.maxNetwork.value else NetworkOf(launch)),
      (if Contradicts(launch, config, SandboxAxis) then [SandboxAxis] else []) +
      (if Contradicts(launch, config, ApprovalAxis) then [ApprovalAxis] else []) +
      (if Contradicts(launch, config, NetworkAxis) then [NetworkAxis] else []))
  }

  /** What the wrapper may effectively do stays at or below the ceiling on every axis. */
  predicate Within(a: Axes, c: Ceiling) {
    && SandboxRank(SandboxOf(a)) <= SandboxRank(c.sandbox)
    && ApprovalRank(ApprovalOf(a)) <= ApprovalRank(c.approval)
    && (EffectiveNetworkAccess(SandboxOf(a), NetworkOf(a)) ==> EffectiveNetworkAccess(c.sandbox, c.network))
  }

  /** A launch below its explicit ceilings is resolved to a ceiling it is within. */
  lemma ResolvedLaunchIsWithin(launch: Axes, config: MaxConfig)
    requires Resolve(launch, config).conflicts == []
    ensures Within(launch, Resolve(launch, config).ceiling)
  {
    assert forall axis :: Contradicts(launch, config, axis) ==> axis in Resolve(launch, config).conflicts;
  }

  /** The re-check a snapshot goes through against a pinned ceiling: network values are
    * mapped to effective access on both sides first. */
  function ConflictAgainst(a: Axes, c: Ceiling): seq<Axis> {
    Resolve(
      a.(network := Some(EffectiveNetworkAccess(SandboxOf(a), NetworkOf(a)))),
      MaxConfig(Some(c.sandbox), Some(c.approval), Some(EffectiveNetworkAccess(c.sandbox, c.network)))).conflicts
  }

  /** The re-check is exact for every pinned ceiling: it is silent just when the values
    * are within it. A pinned approval ceiling is never `on-failure`. */
  lemma ConflictAgainstIsExact(a: Axes, c: Ceiling)
    requires c.approval != OnFailure
    ensures ConflictAgainst(a, c) == [] <==> Within(a, c)
  {
  }

  lemma PinnedApprovalIsRanked(launch: Axes, config: MaxConfig)
    ensures Resolve(launch, config).ceiling.approval != OnFailure
  {
  }

  /** Raising the sandbox or switching the network on never lowers effective access. */
  lemma EffectiveNetworkIsMonotone(s: Sandbox, s': Sandbox, n: bool, n': bool)
    requires SandboxRank(s) <= SandboxRank(s') && (n ==> n')
    ensures EffectiveNetworkAccess(s, n) ==> EffectiveNetworkAccess(s', n')
  {
  }

  /** The header comment says an `on-failure` launch is treated as an absent axis. It is not:
    * with an explicit `untrusted` ceiling the absent axis conflicts and `on-failure` passes.
    * The two agree exactly when no explicit ceiling below the default is set. */
  lemma OnFailureIsNotAbsent(sandbox: Option<Sandbox>, network: Option<bool>, config: MaxConfig)
    ensures Resolve(Axes(sandbox, Some(OnFailure), network), config) == Resolve(Axes(sandbox, None, network), config)
            <==> config.maxApproval != Some(Untrusted)
  {
    hide Contradicts;
    var a, b := Axes(sandbox, Some(OnFailure), network), Axes(sandbox, None, network);
    OnlyApprovalDiffers(a, b, config);
    if config.maxApproval == Some(Untrusted) {
      assert ApprovalAxis in Resolve(b, config).conflicts;
      assert ApprovalAxis !in Resolve(a, config).conflicts;
    }
  }

  /** An `on-failure` launch contradicts no approval ceiling, an absent one only `untrusted`. */
  lemma OnlyApprovalDiffers(a: Axes, b: Axes, config: MaxConfig)
    requires a == b.(approval := Some(OnFailure)) && b.approval.None?
    ensures Contradicts(a, config, SandboxAxis) == Contradicts(b, config, SandboxAxis)
    ensures Contradicts(a, config, NetworkAxis) == Contradicts(b, config, NetworkAxis)
    ensures !Contradicts(a, config, ApprovalAxis)
    ensures Contradicts(b, config, ApprovalAxis) <==> config.maxApproval == Some(Untrusted)
  {
  }

  // ---- The resume snapshot --------------------------------------------------

  /** A sanitized snapshot: every present field already passed its guard. */
  datatype Snapshot = Snapshot(
    model: Option<string>, modelSource: Option<Source>,
    effort: Option<string>, effortSource: Option<Source>,
    permissionMode: Option<PermissionMode>,
    sandbox: Option<Sandbox>, network: Option<bool>, approval: Option<Approval>)

  const EmptySnapshot := Snapshot(None, None, None, None, None, None, None, None)

  /** A JSON value as far as the guards can tell values apart. */
  datatype Json = Text(text: string) | Flag(flag: bool) | OtherJson

  function SandboxText(t: string): Option<Sandbox> {
    if t == "read-only" then Some(ReadOnly)
    else if t == "workspace-write" then Some(WorkspaceWrite)
    else if t == "danger-full-access" then Some(DangerFullAccess) else None
  }

  /** `on-failure` is not among the values this engine accepts. */
  function ApprovalText(t: string): Option<Approval> {
    if t == "untrusted" then Some(Untrusted)
    else if t == "on-request" then Some(OnRequest)
    else if t == "local" then Some(Local)
    else if t == "never" then Some(Never) else None
  }

  function ModeText(t: string): Option<PermissionMode> {
    if t == "default" then Some(Default)
    else if t == "acceptEdits" then Some(AcceptEdits)
    else if t == "plan" then Some(Plan)
    else if t == "dontAsk" then Some(DontAsk)
    else if t == "auto" then Some(Auto)
    else if t == "bypassPermissions" then Some(BypassPermissions) else None
  }

  function SourceText(t: string): Option<Source> {
    if t == "launch" then Some(FromLaunch)
    else if t == "env" then Some(FromEnv)
    else if t == "config" then Some(FromConfig)
    else if t == "default" then Some(FromDefault) else None
  }

  /** One entry of the wire object; anything unknown or malformed is dropped. */
  function Admit(s: Snapshot, key: string, v: Json): Snapshot {
    match v
    case Flag(b) => if key == "network_access" then s.(network := Some(b)) else s
    case OtherJson => s
    case Text(t) =>
      if key == "model" && t != "" then s.(model := Some(t))
      else if key == "effort" && t != "" then s.(effort := Some(t))
      else if key == "model_source" && SourceText(t).Some? then s.(modelSource := SourceText(t))
      else if key == "effort_source" && SourceText(t).Some? then s.(effortSource := SourceText(t))
      else if key == "permission_mode" && ModeText(t).Some? then s.(permissionMode := ModeText(t))
      else if key == "sandbox" && SandboxText(t).Some? then s.(sandbox := SandboxText(t))
      else if key == "approval" && ApprovalText(t).Some? then s.(approval := ApprovalText(t))
      else s
  }

  function AdmitAll(entries: seq<(string, Json)>): Snapshot {
    if entries == [] then EmptySnapshot
    else Admit(AdmitAll(entries[..|entries| - 1]), entries[|entries| - 1].0, entries[|entries| - 1].1)
  }

  /** Sanitizes a raw snapshot; None when the input is not an object at all. */
  method ValidateResolvedSnapshot(raw: Option<seq<(string, Json)>>) returns (out: Option<Snapshot>)
    ensures out == if raw.None? then None else Some(AdmitAll(raw.value))
  {
    if raw.None? { return None; }
    var entries, s := raw.value, EmptySnapshot;
    for i := 0 to |entries|
      invariant s == AdmitAll(entries[..i])
    {
      assert entries[..i + 1][..i] == entries[..i];
      s := Admit(s, entries[i].0, entries[i].1);
    }
    assert entries[..|entries|] == entries;
    out := Some(s);
  }

  ghost predicate Spelled(entries: seq<(string, Json)>, key: string, v: Json) {
    exists i :: 0 <= i < |entries| && entries[i] == (key, v)
  }

  lemma SpelledLater(entries: seq<(string, Json)>, key: string, v: Json)
    requires entries != [] && (Spelled(entries[..|entries| - 1], key, v) || entries[|entries| - 1] == (key, v))
    ensures Spelled(entries, key, v)
  {
    if entries[|entries| - 1] != (key, v) {
      var i :| 0 <= i < |entries| - 1 && entries[..|entries| - 1][i] == (key, v);
      assert entries[i] == (key, v);
    }
  }

  /** No wire object can carry a privilege the guards do not name: a sandbox, network or
    * approval value of the sanitized snapshot is spelled out, well-formed, by one of the
    * entries, and the approval value the engine refuses never gets through. */
  lemma {:induction false} SandboxIsSpelledOut(entries: seq<(string, Json)>) returns (text: string)
    ensures AdmitAll(entries).sandbox.Some? ==>
              Spelled(entries, "sandbox", Text(text)) && SandboxText(text) == AdmitAll(entries).sandbox
  {
    text := "";
    if entries != [] {
      var (key, v) := entries[|entries| - 1];
      text := SandboxIsSpelledOut(entries[..|entries| - 1]);
      if key == "sandbox" && v.Text? && SandboxText(v.text).Some? { text := v.text; }
      if AdmitAll(entries).sandbox.Some? { SpelledLater(entries, "sandbox", Text(text)); }
    }
  }

  lemma {:induction false} ApprovalIsSpelledOut(entries: seq<(string, Json)>) returns (text: string)
    ensures AdmitAll(entries).approval.Some? ==>
              Spelled(entries, "approval", Text(text)) && ApprovalText(text) == AdmitAll(entries).approval
    ensures AdmitAll(entries).approval != Some(OnFailure)
  {
    text := "";
    if entries != [] {
      var (key, v) := entries[|entries| - 1];
      text := ApprovalIsSpelledOut(entries[..|entries| - 1]);
      if key == "approval" && v.Text? && ApprovalText(v.text).Some? { text := v.text; }
      if AdmitAll(entries).approval.Some? { SpelledLater(entries, "approval", Text(text)); }
    }
  }

  lemma {:induction false} NetworkIsSpelledOut(entries: seq<(string, Json)>)
    ensures var network := AdmitAll(entries).network;
            network.Some? ==> Spelled(entries, "network_access", Flag(network.value))
  {
    if entries != [] {
      NetworkIsSpelledOut(entries[..|entries| - 1]);
      var network := AdmitAll(entries).network;
      if network.Some? { SpelledLater(entries, "network_access", Flag(network.value)); }
    }
  }

  /** The launch settings a snapshot can overwrite. */
  datatype Settings = Settings(
    model: Option<string>, modelSource: Option<Source>,
    effort: Option<string>, effortSource: Option<Source>,
    permissionMode: Option<PermissionMode>,
    axes: Axes)

  /** The value and its source travel together or not at all; a default is never pinned. */
  function ComputePair(value: Option<string>, source: Option<Source>): Option<(string, Source)> {
    if value.None? then None
    else if source == Some(FromDefault) then None
    else Some((value.value, if source.Some? then source.value else FromConfig))
  }

  function OrElse<T>(o: Option<T>, d: T): Option<T> { if o.Some? then o else Some(d) }

  /** `on-failure` fails the guard like any unknown value. */
  function ValidApproval(a: Option<Approval>): Option<Approval> { if a == Some(OnFailure) then None else a }

  function ApplyAxes(p: Settings, s: Snapshot, engine: Engine): Settings {
    match engine
    case ClaudeCode => p.(permissionMode := OrElse(s.permissionMode, Default))
    case Codex => p.(axes := p.axes.(sandbox := OrElse(s.sandbox, WorkspaceWrite), network := OrElse(s.network, false)))
    case Grok => p.(axes := p.axes.(sandbox := OrElse(s.sandbox, WorkspaceWrite), network := OrElse(s.network, false)))
    case Antigravity =>
      p.(axes := Axes(OrElse(s.sandbox, WorkspaceWrite), OrElse(ValidApproval(s.approval), OnRequest),
                      OrElse(s.network, false)))
  }

  function ApplyResumeSnapshot(p: Settings, snapshot: Option<Snapshot>, engine: Engine): Settings {
    if snapshot.None? then p
    else
      var s := snapshot.value;
      var next := ApplyAxes(p, s, engine);
      var m, e := ComputePair(s.model, s.modelSource), ComputePair(s.effort, s.effortSource);
      next.(model := if m.Some? then Some(m.value.0) else None,
            modelSource := if m.Some? then Some(m.value.1) else None,
            effort := if e.Some? then Some(e.value.0) else None,
            effortSource := if e.Some? then Some(e.value.1) else None)
  }

  datatype P0Field = SandboxField | ApprovalField | NetworkField | ModeField

  function P0Fields(engine: Engine): seq<P0Field> {
    match engine
    case ClaudeCode => [ModeField]
    case Codex => [SandboxField, NetworkField]
    case Grok => [SandboxField, NetworkField]
    case Antigravity => [SandboxField, ApprovalField, NetworkField]
  }

  function ApplyField(p: Settings, s: Snapshot, f: P0Field): Settings {
    match f
    case SandboxField => p.(axes := p.axes.(sandbox := OrElse(s.sandbox, WorkspaceWrite)))
    case ApprovalField => p.(axes := p.axes.(approval := OrElse(ValidApproval(s.approval), OnRequest)))
    case NetworkField => p.(axes := p.axes.(network := OrElse(s.network, false)))
    case ModeField => p.(permissionMode := OrElse(s.permissionMode, Default))
  }

  function ApplyFields(p: Settings, s: Snapshot, fields: seq<P0Field>): Settings {
    if fields == [] then p else ApplyField(ApplyFields(p, s, fields[..|fields| - 1]), s, fields[|fields| - 1])
  }

  lemma FieldsAreTheAxes(p: Settings, s: Snapshot, engine: Engine)
    ensures ApplyFields(p, s, P0Fields(engine)) == ApplyAxes(p, s, engine)
  {
    var fs := P0Fields(engine);
    assert forall i :: 0 <= i <= |fs| ==> |fs[..i]| == i;
    assert ApplyFields(p, s, []) == p;
    assert ApplyFields(p, s, fs[..1]) == ApplyField(p, s, fs[0]) by { assert fs[..1][..0] == []; }
    if |fs| >= 2 {
      assert ApplyFields(p, s, fs[..2]) == ApplyField(ApplyFields(p, s, fs[..1]), s, fs[1]) by {
        assert fs[..2][..1] == fs[..1];
      }
    }
    assert fs[..|fs|] == fs;
  }

  /** Overwrites a copy of the launch settings field by field. */
  method ApplySnapshotToCopy(p: Settings, snapshot: Option<Snapshot>, engine: Engine) returns (next: Settings)
    ensures next == ApplyResumeSnapshot(p, snapshot, engine)
  {
    if snapshot.None? { return p; }
    var s := snapshot.value;
    next := p;
    var fields := P0Fields(engine);
    for i := 0 to |fields|
      invariant next == ApplyFields(p, s, fields[..i])
    {
      assert fields[..i + 1][..i] == fields[..i];
      next := ApplyField(next, s, fields[i]);
    }
    assert fields[..|fields|] == fields;
    FieldsAreTheAxes(p, s, engine);
    var m := ComputePair(s.model, s.modelSource);
    if m.Some? {
      next := next.(model := Some(m.value.0), modelSource := Some(m.value.1));
    } else {
      next := next.(model := None, modelSource := None);
    }
    var e := ComputePair(s.effort, s.effortSource);
    if e.Some? {
      next := next.(effort := Some(e.value.0), effortSource := Some(e.value.1));
    } else {
      next := next.(effort := None, effortSource := None);
    }
  }

  predicate SamePrivileges(a: Settings, b: Settings, engine: Engine) {
    match engine
    case ClaudeCode => a.permissionMode == b.permissionMode
    case Codex => a.axes.sandbox == b.axes.sandbox && a.axes.network == b.axes.network
    case Grok => a.axes.sandbox == b.axes.sandbox && a.axes.network == b.axes.network
    case Antigravity => a.axes == b.axes
  }

  /** After a step that carries a snapshot, the engine's privilege axes and the model and
    * effort pairs are a function of the snapshot alone: nothing of the previous launch
    * values survives, so no stale privilege can. */
  lemma SnapshotDecidesAlone(p: Settings, q: Settings, s: Snapshot, engine: Engine)
    ensures var a, b := ApplyResumeSnapshot(p, Some(s), engine), ApplyResumeSnapshot(q, Some(s), engine);
            && SamePrivileges(a, b, engine)
            && a.model == b.model && a.modelSource == b.modelSource
            && a.effort == b.effort && a.effortSource == b.effortSource
  {
  }

  /** Applying a snapshot again changes nothing. */
  lemma ApplyIsIdempotent(p: Settings, s: Option<Snapshot>, engine: Engine)
    ensures var once := ApplyResumeSnapshot(p, s, engine);
            ApplyResumeSnapshot(once, s, engine) == once
  {
  }

  /** An empty snapshot is the safe default whatever was running before. */
  lemma EmptySnapshotIsSafe(p: Settings)
    ensures var a := ApplyResumeSnapshot(p, Some(EmptySnapshot), Antigravity).axes;
            && SandboxOf(a) == WorkspaceWrite && ApprovalOf(a) == OnRequest
            && !EffectiveNetworkAccess(SandboxOf(a), NetworkOf(a))
  {
  }

  /** A source is present exactly when its value is, and never labels a default as a choice. */
  lemma PairsAreHonest(p: Settings, s: Snapshot, engine: Engine)
    ensures var a := ApplyResumeSnapshot(p, Some(s), engine);
            && (a.model.Some? <==> a.modelSource.Some?) && a.modelSource != Some(FromDefault)
            && (a.effort.Some? <==> a.effortSource.Some?) && a.effortSource != Some(FromDefault)
            && (a.model.Some? <==> s.model.Some? && s.modelSource != Some(FromDefault))
            && (a.model.Some? ==> a.model == s.model && (s.modelSource.Some? ==> a.modelSource == s.modelSource))
  {
  }

  // ---- What a snapshot gives ------------------------------------------------

  /** What an axis carries after a snapshot: the snapshot's own value, or the safe default. */
  predicate Carries<T(==)>(axis: Option<T>, own: Option<T>, safe: T) {
    && axis.Some?
    && (own.Some? ==> axis == own)
    && (own.None? ==> axis.value == safe)
  }

  /** Engine by engine: the axes that are the engine's carry the snapshot's values, `on-failure`
    * counting as none, and every other axis stays. */
  predicate Applied(p: Settings, s: Snapshot, engine: Engine, t: Settings) {
    match engine
    case ClaudeCode => Carries(t.permissionMode, s.permissionMode, Default) && t.axes == p.axes
    case Antigravity =>
      && Carries(t.axes.sandbox, s.sandbox, WorkspaceWrite) && Carries(t.axes.network, s.network, false)
      && t.axes.approval == (match s.approval case None => Some(OnRequest) case Some(OnFailure) => Some(OnRequest)
                                              case Some(a) => Some(a))
      && t.permissionMode == p.permissionMode
    case _ =>
      && Carries(t.axes.sandbox, s.sandbox, WorkspaceWrite) && Carries(t.axes.network, s.network, false)
      && t.axes.approval == p.axes.approval && t.permissionMode == p.permissionMode
  }

  /** A value and its source after a snapshot: both the snapshot's, the source standing for
    * `config` when there is none, and neither when the value was the engine's own default. */
  predicate PairCarries(value: Option<string>, source: Option<Source>, own: Option<string>, from: Option<Source>) {
    if own.None? || from == Some(FromDefault) then value.None? && source.None?
    else value == own && source.Some? && (from.Some? ==> source == from) && (from.None? ==> source.value == FromConfig)
  }

  /** The snapshot's own values are what the agent resumes with. */
  lemma SnapshotValuesAreApplied(p: Settings, s: Snapshot, engine: Engine)
    ensures var t := ApplyResumeSnapshot(p, Some(s), engine);
            && Applied(p, s, engine, t)
            && PairCarries(t.model, t.modelSource, s.model, s.modelSource)
            && PairCarries(t.effort, t.effortSource, s.effort, s.effortSource)
    ensures ApplyResumeSnapshot(p, None, engine) == p
  {
  }

  // ---- From the wire to the launch ------------------------------------------

  /** The raw object has each key once. */
  ghost predicate OneEach(entries: seq<(string, Json)>) {
    forall i, j :: 0 <= i < j < |entries| ==> entries[i].0 != entries[j].0
  }

  /** The snapshot has this entry, if the entry passes its guard. */
  predicate HasEntry(s: Snapshot, key: string, v: Json) {
    && (key == "sandbox" && v.Text? && SandboxText(v.text).Some? ==> s.sandbox == SandboxText(v.text))
    && (key == "approval" && v.Text? && ApprovalText(v.text).Some? ==> s.approval == ApprovalText(v.text))
    && (key == "network_access" && v.Flag? ==> s.network == Some(v.flag))
    && (key == "permission_mode" && v.Text? && ModeText(v.text).Some? ==> s.permissionMode == ModeText(v.text))
    && (key == "model" && v.Text? && v.text != "" ==> s.model == Some(v.text))
    && (key == "effort" && v.Text? && v.text != "" ==> s.effort == Some(v.text))
    && (key == "model_source" && v.Text? && SourceText(v.text).Some? ==> s.modelSource == SourceText(v.text))
    && (key == "effort_source" && v.Text? && SourceText(v.text).Some? ==> s.effortSource == SourceText(v.text))
  }

  lemma OwnKey(s: Snapshot, key: string, v: Json)
    ensures HasEntry(Admit(s, key, v), key, v)
  {
    hide SandboxText, ApprovalText, ModeText, SourceText;
  }

  lemma OtherKeys(s: Snapshot, other: string, w: Json)
    ensures forall key, v :: key != other && HasEntry(s, key, v) ==> HasEntry(Admit(s, other, w), key, v)
  {
    hide SandboxText, ApprovalText, ModeText, SourceText;
  }

  /** An entry that passes its guard is in the sanitized snapshot. */
  lemma {:induction false} SpelledIsAdmitted(entries: seq<(string, Json)>, key: string, v: Json)
    requires OneEach(entries) && Spelled(entries, key, v)
    ensures HasEntry(AdmitAll(entries), key, v)
  {
    hide Admit, SandboxText, ApprovalText, ModeText, SourceText, HasEntry;
    var i :| 0 <= i < |entries| && entries[i] == (key, v);
    var n := |entries| - 1;
    if i < n {
      assert entries[..n][i] == (key, v);
      SpelledIsAdmitted(entries[..n], key, v);
      assert entries[n].0 != key;
      OtherKeys(AdmitAll(entries[..n]), entries[n].0, entries[n].1);
    } else {
      OwnKey(AdmitAll(entries[..n]), key, v);
    }
  }

  lemma {:induction false} ModeIsSpelledOut(entries: seq<(string, Json)>) returns (text: string)
    ensures AdmitAll(entries).permissionMode.Some? ==>
              Spelled(entries, "permission_mode", Text(text)) && ModeText(text) == AdmitAll(entries).permissionMode
  {
    text := "";
    if entries != [] {
      var (key, v) := entries[|entries| - 1];
      text := ModeIsSpelledOut(entries[..|entries| - 1]);
      if key == "permission_mode" && v.Text? && ModeText(v.text).Some? { text := v.text; }
      if AdmitAll(entries).permissionMode.Some? { SpelledLater(entries, "permission_mode", Text(text)); }
    }
  }

  /** The axis of a sandbox, an approval or a mode the wire object spells out, given the texts
    * that move it off the safe default. */
  ghost function WireSandbox(entries: seq<(string, Json)>): Sandbox {
    if Spelled(entries, "sandbox", Text("read-only")) then ReadOnly
    else if Spelled(entries, "sandbox", Text("danger-full-access")) then DangerFullAccess
    else WorkspaceWrite
  }

  ghost function WireApproval(entries: seq<(string, Json)>): Approval {
    if Spelled(entries, "approval", Text("untrusted")) then Untrusted
    else if Spelled(entries, "approval", Text("local")) then Local
    else if Spelled(entries, "approval", Text("never")) then Never
    else OnRequest
  }

  ghost function WireMode(entries: seq<(string, Json)>): PermissionMode {
    if Spelled(entries, "permission_mode", Text("acceptEdits")) then AcceptEdits
    else if Spelled(entries, "permission_mode", Text("plan")) then Plan
    else if Spelled(entries, "permission_mode", Text("dontAsk")) then DontAsk
    else if Spelled(entries, "permission_mode", Text("auto")) then Auto
    else if Spelled(entries, "permission_mode", Text("bypassPermissions")) then BypassPermissions
    else Default
  }

  /** From the raw object to the axes the agent runs with: a text of the closed vocabulary moves
    * its axis, anything else leaves the safe default. */
  lemma WireDecidesTheAxes(entries: seq<(string, Json)>, p: Settings, engine: Engine)
    requires OneEach(entries)
    ensures var t := ApplyResumeSnapshot(p, Some(AdmitAll(entries)), engine);
            match engine
            case ClaudeCode => t.permissionMode == Some(WireMode(entries)) && t.axes == p.axes
            case Antigravity =>
              t.axes == Axes(Some(WireSandbox(entries)), Some(WireApproval(entries)),
                             Some(Spelled(entries, "network_access", Flag(true))))
            case _ =>
              t.axes == p.axes.(sandbox := Some(WireSandbox(entries)),
                                network := Some(Spelled(entries, "network_access", Flag(true))))
  {
    hide AdmitAll, OneEach, Spelled;
    SnapshotValuesAreApplied(p, AdmitAll(entries), engine);
    SandboxOnTheWire(entries);
    ApprovalOnTheWire(entries);
    NetworkOnTheWire(entries);
    ModeOnTheWire(entries);
    var axes := ApplyResumeSnapshot(p, Some(AdmitAll(entries)), engine).axes;
    if engine != ClaudeCode {
      assert axes.network.Some? && axes.network.value == Spelled(entries, "network_access", Flag(true));
    }
  }

  lemma SandboxOnTheWire(entries: seq<(string, Json)>)
    requires OneEach(entries)
    ensures AdmitAll(entries).sandbox == Some(WireSandbox(entries))
            || (AdmitAll(entries).sandbox.None? && WireSandbox(entries) == WorkspaceWrite)
  {
    hide AdmitAll, OneEach, Spelled;
    var text := SandboxIsSpelledOut(entries);
    forall t | Spelled(entries, "sandbox", Text(t)) && SandboxText(t).Some?
      ensures AdmitAll(entries).sandbox == SandboxText(t)
    {
      SpelledIsAdmitted(entries, "sandbox", Text(t));
    }
  }

  lemma ApprovalOnTheWire(entries: seq<(string, Json)>)
    requires OneEach(entries)
    ensures AdmitAll(entries).approval == Some(WireApproval(entries))
            || (AdmitAll(entries).approval.None? && WireApproval(entries) == OnRequest)
  {
    hide AdmitAll, OneEach, Spelled;
    var text := ApprovalIsSpelledOut(entries);
    forall t | Spelled(entries, "approval", Text(t)) && ApprovalText(t).Some?
      ensures AdmitAll(entries).approval == ApprovalText(t)
    {
      SpelledIsAdmitted(entries, "approval", Text(t));
    }
  }

  lemma ModeOnTheWire(entries: seq<(string, Json)>)
    requires OneEach(entries)
    ensures AdmitAll(entries).permissionMode == Some(WireMode(entries))
            || (AdmitAll(entries).permissionMode.None? && WireMode(entries) == Default)
  {
    hide AdmitAll, OneEach, Spelled;
    var text := ModeIsSpelledOut(entries);
    forall t | Spelled(entries, "permission_mode", Text(t)) && ModeText(t).Some?
      ensures AdmitAll(entries).permissionMode == ModeText(t)
    {
      SpelledIsAdmitted(entries, "permission_mode", Text(t));
    }
  }

  lemma NetworkOnTheWire(entries: seq<(string, Json)>)
    requires OneEach(entries)
    ensures AdmitAll(entries).network == Some(true) <==> Spelled(entries, "network_access", Flag(true))
  {
    hide AdmitAll, OneEach, Spelled;
    NetworkIsSpelledOut(entries);
    if Spelled(entries, "network_access", Flag(true)) { SpelledIsAdmitted(entries, "network_access", Flag(true)); }
  }

  lemma {:induction false} ValuesAreSpelledOut(entries: seq<(string, Json)>)
    ensures var s := AdmitAll(entries);
            && (s.model.Some? ==> s.model.value != "" && Spelled(entries, "model", Text(s.model.value)))
            && (s.effort.Some? ==> s.effort.value != "" && Spelled(entries, "effort", Text(s.effort.value)))
  {
    hide SandboxText, ApprovalText, ModeText, SourceText, Spelled;
    if entries != [] {
      var (key, v) := entries[|entries| - 1];
      ValuesAreSpelledOut(entries[..|entries| - 1]);
      var s := AdmitAll(entries);
      if s.model.Some? && s.model != AdmitAll(entries[..|entries| - 1]).model { assert v == Text(s.model.value); }
      if s.model.Some? { SpelledLater(entries, "model", Text(s.model.value)); }
      if s.effort.Some? { SpelledLater(entries, "effort", Text(s.effort.value)); }
    }
  }

  lemma {:induction false} ModelSourceIsSpelledOut(entries: seq<(string, Json)>) returns (text: string)
    ensures AdmitAll(entries).modelSource.Some? ==>
              Spelled(entries, "model_source", Text(text)) && SourceText(text) == AdmitAll(entries).modelSource
  {
    text := "";
    if entries != [] {
      var (key, v) := entries[|entries| - 1];
      text := ModelSourceIsSpelledOut(entries[..|entries| - 1]);
      if key == "model_source" && v.Text? && SourceText(v.text).Some? { text := v.text; }
      if AdmitAll(entries).modelSource.Some? { SpelledLater(entries, "model_source", Text(text)); }
    }
  }

  lemma {:induction false} EffortSourceIsSpelledOut(entries: seq<(string, Json)>) returns (text: string)
    ensures AdmitAll(entries).effortSource.Some? ==>
              Spelled(entries, "effort_source", Text(text)) && SourceText(text) == AdmitAll(entries).effortSource
  {
    text := "";
    if entries != [] {
      var (key, v) := entries[|entries| - 1];
      text := EffortSourceIsSpelledOut(entries[..|entries| - 1]);
      if key == "effort_source" && v.Text? && SourceText(v.text).Some? { text := v.text; }
      if AdmitAll(entries).effortSource.Some? { SpelledLater(entries, "effort_source", Text(text)); }
    }
  }

  /** What the raw object says of a model or an effort: the value and where it was chosen, `config`
    * unless it says otherwise; nothing when the engine's own default had been running. */
  ghost predicate WirePair(entries: seq<(string, Json)>, key: string, from: string, value: Option<string>,
                           source: Option<Source>) {
    if Spelled(entries, from, Text("default")) then value.None? && source.None?
    else
      && (forall text :: text != "" && Spelled(entries, key, Text(text)) ==> value == Some(text))
      && (value.Some? ==>
            && value.value != "" && Spelled(entries, key, Text(value.value))
            && source == Some(if Spelled(entries, from, Text("launch")) then FromLaunch
                              else if Spelled(entries, from, Text("env")) then FromEnv else FromConfig))
      && (value.None? ==> source.None?)
  }

  lemma WireDecidesThePairs(entries: seq<(string, Json)>, p: Settings, engine: Engine)
    requires OneEach(entries)
    ensures var t := ApplyResumeSnapshot(p, Some(AdmitAll(entries)), engine);
            && WirePair(entries, "model", "model_source", t.model, t.modelSource)
            && WirePair(entries, "effort", "effort_source", t.effort, t.effortSource)
  {
    hide AdmitAll, OneEach, Spelled, ApplyAxes;
    ValuesAreSpelledOut(entries);
    var model := ModelSourceIsSpelledOut(entries);
    var effort := EffortSourceIsSpelledOut(entries);
    SourceOnTheWire(entries, model, effort);
    forall key, text | Spelled(entries, key, Text(text)) ensures HasEntry(AdmitAll(entries), key, Text(text)) {
      SpelledIsAdmitted(entries, key, Text(text));
    }
  }

  /** The source of a pair is the one of the vocabulary that is spelled out, if any is. */
  lemma SourceOnTheWire(entries: seq<(string, Json)>, model: string, effort: string)
    requires OneEach(entries)
    requires var s := AdmitAll(entries);
             && (s.modelSource.Some? ==>
                   Spelled(entries, "model_source", Text(model)) && SourceText(model) == s.modelSource)
             && (s.effortSource.Some? ==>
                   Spelled(entries, "effort_source", Text(effort)) && SourceText(effort) == s.effortSource)
    ensures var s := AdmitAll(entries);
            && SourceIs(entries, "model_source", s.modelSource) && SourceIs(entries, "effort_source", s.effortSource)
  {
    hide AdmitAll, OneEach, Spelled;
    forall key, text | Spelled(entries, key, Text(text)) ensures HasEntry(AdmitAll(entries), key, Text(text)) {
      SpelledIsAdmitted(entries, key, Text(text));
    }
  }

  ghost predicate SourceIs(entries: seq<(string, Json)>, key: string, source: Option<Source>) {
    && (Spelled(entries, key, Text("default")) <==> source == Some(FromDefault))
    && (Spelled(entries, key, Text("launch")) <==> source == Some(FromLaunch))
    && (Spelled(entries, key, Text("env")) <==> source == Some(FromEnv))
    && (Spelled(entries, key, Text("config")) <==> source == Some(FromConfig))
  }

  // ---- The ceiling, spelled out ---------------------------------------------

  /** The values that need no more than `top`. */
  function Sandboxes(top: Sandbox): set<Sandbox> {
    match top
    case ReadOnly => {ReadOnly}
    case WorkspaceWrite => {ReadOnly, WorkspaceWrite}
    case DangerFullAccess => {ReadOnly, WorkspaceWrite, DangerFullAccess}
  }

  /** `on-failure` passes every approval ceiling. */
  function Approvals(top: Approval): set<Approval> {
    match top
    case OnFailure => {OnFailure}
    case Untrusted => {OnFailure, Untrusted}
    case OnRequest => {OnFailure, Untrusted, OnRequest}
    case Local => {OnFailure, Untrusted, OnRequest, Local}
    case Never => {OnFailure, Untrusted, OnRequest, Local, Never}
  }

  /** Whether this launch can reach the network: always without a sandbox, never read-only, and
    * otherwise when configured. */
  predicate Reaches(sandbox: Sandbox, network: bool) {
    sandbox == DangerFullAccess || (sandbox == WorkspaceWrite && network)
  }

  /** A value is within a ceiling exactly when each axis is among those below it, absent axes
    * standing for workspace-write, on-request and no network. */
  lemma WithinSpelledOut(a: Axes, c: Ceiling)
    ensures var sandbox := match a.sandbox case None => WorkspaceWrite case Some(x) => x;
            var approval := match a.approval case None => OnRequest case Some(x) => x;
            Within(a, c) <==>
              && sandbox in Sandboxes(c.sandbox) && approval in Approvals(c.approval)
              && (Reaches(sandbox, a.network == Some(true)) ==> Reaches(c.sandbox, c.network))
  {
  }

  /** The ceiling a launch is pinned to, axis by axis: an explicit one is taken when the launch
    * needs no more, and reported as a conflict when it does; without one the launch value is
    * the ceiling, an approval at least `local`. */
  lemma CeilingSpelledOut(launch: Axes, config: MaxConfig)
    ensures var sandbox := match launch.sandbox case None => WorkspaceWrite case Some(x) => x;
            var approval := match launch.approval case None => OnRequest case Some(x) => x;
            var r := Resolve(launch, config);
            && r.ceiling.sandbox == (match config.maxSandbox
                                     case Some(m) => if sandbox in Sandboxes(m) then m else sandbox
                                     case None => sandbox)
            && (SandboxAxis in r.conflicts <==>
                  config.maxSandbox.Some? && sandbox !in Sandboxes(config.maxSandbox.value))
            && (if config.maxApproval.Some? && config.maxApproval != Some(OnFailure)
                   && approval in Approvals(config.maxApproval.value)
                then r.ceiling.approval == config.maxApproval.value
                else r.ceiling.approval == if approval == Never then Never else Local)
            && (ApprovalAxis in r.conflicts <==>
                  config.maxApproval.Some? && config.maxApproval != Some(OnFailure)
                  && approval !in Approvals(config.maxApproval.value))
            && r.ceiling.network == (if config.maxNetwork == Some(true) then true else launch.network == Some(true))
            && (NetworkAxis in r.conflicts <==> config.maxNetwork == Some(false) && launch.network == Some(true))
  {
    ConflictsAre(launch, config);
  }

  /** The conflicts are the axes an explicit ceiling contradicts. */
  lemma ConflictsAre(launch: Axes, config: MaxConfig)
    ensures forall axis :: axis in Resolve(launch, config).conflicts <==> Contradicts(launch, config, axis)
  {
  }
}
