/** The application state and its transitions: the generate button (start, then
    completion once the delay elapses), pasting and editing the third module, the
    archive, the hit and rectification records, and the settings. Identifiers,
    clocks and random draws are parameters. */
module App {
  import opened Digits
  import opened Types
  import opened Parse
  import opened Generation
  import ModuleInput

  /** The archive keeps at most this many module sets. */
  const HistoryCap: nat := 250

  /** An empty module: seven empty slots. */
  const EmptyModule: seq<string> := ["", "", "", "", "", "", ""]

  datatype Settings = Settings(entropy: real, voiceEnabled: bool)

  /** What the delayed completion sees: the parsed modules and the archive, hits,
      rectifications and entropy as they were when the button was pressed. */
  datatype Pending = Pending(
    modules: seq<DataSet>,
    history: History,
    hits: seq<HitRecord>,
    rects: seq<RectificationRecord>,
    entropy: real)

  datatype AppState = AppState(
    history: History,
    hits: seq<HitRecord>,
    rects: seq<RectificationRecord>,
    settings: Settings,
    m1: seq<string>,
    m2: seq<string>,
    m3: seq<string>,
    output: Option<CycleOutput>,
    isLoading: bool,
    isLocked: bool,
    pending: Option<Pending>)

  predicate PendingOk(p: Pending) {
    DigitSets(p.modules) && DigitSets(p.history) && ValidEntropy(p.entropy)
  }

  /** What every reachable state keeps: the archive holds digit rows, the entropy is
      a slider value, a generation is pending exactly while loading, and the panel is
      never loading and locked at once. */
  predicate Valid(s: AppState) {
    && DigitSets(s.history)
    && ValidEntropy(s.settings.entropy)
    && (s.isLoading <==> s.pending.Some?)
    && (s.pending.Some? ==> PendingOk(s.pending.value))
    && !(s.isLoading && s.isLocked)
  }

  /** A fresh panel over a stored archive, hits, rectifications and settings. Each
      module is restored from storage when a value was stored there and is seven
      empty slots otherwise. */
  function Init(history: History, hits: seq<HitRecord>, rects: seq<RectificationRecord>, settings: Settings,
                stored1: Option<seq<string>>, stored2: Option<seq<string>>, stored3: Option<seq<string>>): (s: AppState)
    requires DigitSets(history) && ValidEntropy(settings.entropy)
    ensures Valid(s) && !s.isLoading && !s.isLocked && s.output.None?
    ensures s.history == history && s.hits == hits && s.rects == rects && s.settings == settings
    ensures stored1.Some? ==> s.m1 == stored1.value
    ensures stored2.Some? ==> s.m2 == stored2.value
    ensures stored3.Some? ==> s.m3 == stored3.value
    ensures stored1.None? ==> s.m1 == EmptyModule
    ensures stored2.None? ==> s.m2 == EmptyModule
    ensures stored3.None? ==> s.m3 == EmptyModule
  {
    var m1 := if stored1.Some? then stored1.value else EmptyModule;
    var m2 := if stored2.Some? then stored2.value else EmptyModule;
    var m3 := if stored3.Some? then stored3.value else EmptyModule;
    AppState(history, hits, rects, settings, m1, m2, m3, None, false, false, None)
  }

  // ---------------------------------------------------------------------------
  // Generating.
  // ---------------------------------------------------------------------------

  /** The button is inert while loading or locked. */
  predicate Guarded(s: AppState) {
    s.isLoading || s.isLocked
  }

  /** `handleGenerate` up to the timer: unless guarded, mark loading and parse the
      three modules. The parse errors are not consulted. */
  function Start(s: AppState): (r: AppState)
    requires !Guarded(s) ==> DigitModules([s.m1, s.m2, s.m3])
    ensures Guarded(s) ==> r == s
    ensures !Guarded(s) ==> r.isLoading && r.pending.Some?
    ensures !Guarded(s) ==> var p := r.pending.value;
              && p.modules == ParseModules([s.m1, s.m2, s.m3]).modules
              && p.history == s.history && p.hits == s.hits && p.rects == s.rects
              && p.entropy == s.settings.entropy
    ensures !Guarded(s) ==> r.(isLoading := s.isLoading, pending := s.pending) == s
  {
    if Guarded(s) then s
    else
      var parsed := ParseModules([s.m1, s.m2, s.m3]);
      s.(isLoading := true,
         pending := Some(Pending(parsed.modules, s.history, s.hits, s.rects, s.settings.entropy)))
  }

  /** The timer callback: run a cycle on the snapshot, show it, stop loading, lock. */
  function Complete(s: AppState, draws: seq<Draw>): (r: AppState)
    requires s.pending.Some? && PendingOk(s.pending.value)
    requires |draws| == CycleDraws && ValidDraws(draws)
    ensures !r.isLoading && r.isLocked && r.pending.None? && r.output.Some?
    ensures var p := s.pending.value;
            r.output.value == RunGenerationCycle(p.modules, p.history, p.hits, p.rects, p.entropy, draws)
    ensures r.(output := s.output, isLoading := s.isLoading, isLocked := s.isLocked, pending := s.pending) == s
  {
    var p := s.pending.value;
    var out := RunGenerationCycle(p.modules, p.history, p.hits, p.rects, p.entropy, draws);
    s.(output := Some(out), isLoading := false, isLocked := true, pending := None)
  }

  /** The cycle shown after a completed generation is computed from the modules and
      the archive as they were when the button was pressed, even if a paste changed
      them in between. */
  lemma CompletionUsesSnapshot(s: AppState, v: seq<string>, draws: seq<Draw>)
    requires Valid(s) && !Guarded(s) && DigitModules([s.m1, s.m2, s.m3]) && DigitLines(v)
    requires |draws| == CycleDraws && ValidDraws(draws)
    ensures var started := Start(s);
            Complete(PasteM3(started, v), draws).output == Complete(started, draws).output
  {
    var started := Start(s);
    DigitModulesAreDigitSets(s);
  }

  lemma DigitModulesAreDigitSets(s: AppState)
    requires DigitModules([s.m1, s.m2, s.m3])
    ensures DigitSets(ParseModules([s.m1, s.m2, s.m3]).modules)
  {
  }

  /** One press of the button on an idle panel followed by its completion leaves the
      panel locked: a second press does nothing until the third module changes. */
  lemma GenerateThenLocked(s: AppState, draws: seq<Draw>)
    requires Valid(s) && !Guarded(s) && DigitModules([s.m1, s.m2, s.m3])
    requires |draws| == CycleDraws && ValidDraws(draws)
    ensures var done := Complete(Start(s), draws);
            Valid(done) && Start(done) == done
  {
    DigitModulesAreDigitSets(s);
  }

  /** Pressing twice before the timer fires starts one generation only. */
  lemma StartIsIdempotent(s: AppState)
    requires !Guarded(s) ==> DigitModules([s.m1, s.m2, s.m3])
    ensures Start(Start(s)) == Start(s)
  {
  }

  // ---------------------------------------------------------------------------
  // The third module.
  // ---------------------------------------------------------------------------

  /** `v.map(line => line.split('').map(Number))` for digit lines. */
  function ToDigitSet(v: seq<string>): (set': DataSet)
    requires DigitLines(v)
    ensures |set'| == |v| && DigitRows(set')
    ensures forall j | 0 <= j < |v| :: DigitsToString(set'[j]) == v[j]
  {
    ModuleToDigits(v)
  }

  /** `[entry, ...archive].slice(0, 250)`. */
  function Archive(entry: DataSet, history: History): (h: History)
    ensures |h| <= HistoryCap
    ensures |h| == if |history| < HistoryCap then |history| + 1 else HistoryCap
    ensures h[0] == entry
    ensures forall k | 1 <= k < |h| :: h[k] == history[k - 1]
  {
    var all := [entry] + history;
    if |all| <= HistoryCap then all else all[..HistoryCap]
  }

  /** `handlePasteM3(v)`: the modules move up one place, the pasted module is archived
      at the front, and generation unlocks. */
  function PasteM3(s: AppState, v: seq<string>): (r: AppState)
    requires DigitLines(v)
    ensures r.m1 == s.m2 && r.m2 == s.m3 && r.m3 == v
    ensures !r.isLocked
    ensures r.history == Archive(ToDigitSet(v), s.history)
    ensures r.(m1 := s.m1, m2 := s.m2, m3 := s.m3, history := s.history, isLocked := s.isLocked) == s
  {
    s.(m1 := s.m2, m2 := s.m3, m3 := v, history := Archive(ToDigitSet(v), s.history), isLocked := false)
  }

  /** The archive entry a paste adds reads back as the pasted lines. */
  lemma PastedEntryReadsBack(s: AppState, v: seq<string>)
    requires DigitLines(v)
    ensures var h := PasteM3(s, v).history;
            |h[0]| == |v| && forall j | 0 <= j < |v| :: DigitsToString(h[0][j]) == v[j]
  {
  }

  /** Three pastes replace all three modules, oldest first. */
  lemma ThreePastesReplaceAll(s: AppState, a: seq<string>, b: seq<string>, c: seq<string>)
    requires DigitLines(a) && DigitLines(b) && DigitLines(c)
    ensures var r := PasteM3(PasteM3(PasteM3(s, a), b), c);
            r.m1 == a && r.m2 == b && r.m3 == c
    ensures var r := PasteM3(PasteM3(PasteM3(s, a), b), c);
            |s.history| + 3 <= HistoryCap ==> r.history == [ToDigitSet(c), ToDigitSet(b), ToDigitSet(a)] + s.history
  {
    var r1 := PasteM3(s, a);
    var r2 := PasteM3(r1, b);
    var r3 := PasteM3(r2, c);
    if |s.history| + 3 <= HistoryCap {
      assert r1.history == [ToDigitSet(a)] + s.history;
      assert r2.history == [ToDigitSet(b)] + r1.history;
      assert r3.history == [ToDigitSet(c)] + r2.history;
    }
  }

  /** Typing into the third module: the slot is filtered as typed input is, and
      generation unlocks. */
  function EditM3(s: AppState, index: nat, val: string): (r: AppState)
    requires index < |s.m3|
    ensures r.m3 == ModuleInput.HandleInputChange(s.m3, index, val, false)
    ensures !r.isLocked
    ensures r.(m3 := s.m3, isLocked := s.isLocked) == s
  {
    s.(m3 := ModuleInput.HandleInputChange(s.m3, index, val, false), isLocked := false)
  }

  /** The clear button empties the third module and leaves the lock as it is. */
  function ClearM3(s: AppState): (r: AppState)
    ensures r.m3 == EmptyModule && |r.m3| == ModuleInput.SlotCount
    ensures r.(m3 := s.m3) == s
  {
    s.(m3 := EmptyModule)
  }

  /** A locked panel unlocks through a paste or an edit of the third module, and the
      next press then starts a generation. */
  lemma ChangingM3Unlocks(s: AppState, v: seq<string>, index: nat, val: string)
    requires Valid(s) && !s.isLoading && DigitLines(v) && index < |s.m3|
    ensures !Guarded(PasteM3(s, v)) && !Guarded(EditM3(s, index, val))
  {
  }

  // ---------------------------------------------------------------------------
  // Records.
  // ---------------------------------------------------------------------------

  /** `onMarkHit`: a new record at the front; a missing status is a full hit. */
  function MarkHit(
    s: AppState, id: string, value: string, kind: HitKind, position: int, status: Option<HitStatus>, now: int): (r: AppState)
    ensures |r.hits| == |s.hits| + 1 && r.hits[1..] == s.hits
    ensures r.hits[0].value == value && r.hits[0].kind == kind && r.hits[0].position == position
    ensures r.hits[0].status == (if status.Some? then status.value else Acerto)
    ensures r.hits[0].id == id && r.hits[0].timestamp == now
    ensures r.(hits := s.hits) == s
  {
    s.(hits := [HitRecord(id, kind, status.GetOr(Acerto), value, position, now)] + s.hits)
  }

  /** `onManualRectify`: a new record at the front. */
  function ManualRectify(
    s: AppState, id: string, generated: string, actual: string, kind: HitKind, rankLabel: string, now: int): (r: AppState)
    ensures |r.rects| == |s.rects| + 1 && r.rects[1..] == s.rects
    ensures r.rects[0] == RectificationRecord(id, kind, generated, actual, rankLabel, now)
    ensures r.(rects := s.rects) == s
  {
    s.(rects := [RectificationRecord(id, kind, generated, actual, rankLabel, now)] + s.rects)
  }

  /** `xs.filter((_, idx) => idx !== i)`: every element whose index differs from `i`. */
  function RemoveAt<T>(xs: seq<T>, i: int): (r: seq<T>)
    ensures 0 <= i < |xs| ==> r == xs[..i] + xs[i + 1..]
    ensures !(0 <= i < |xs|) ==> r == xs
  {
    if |xs| == 0 then []
    else
      var rest := RemoveAt(xs[1..], i - 1);
      if i == 0 then rest
      else
        assert 0 < i < |xs| ==> [xs[0]] + xs[1..][..i - 1] == xs[..i];
        assert 0 < i < |xs| ==> xs[1..][i..] == xs[i + 1..];
        assert !(0 <= i < |xs|) ==> [xs[0]] + xs[1..] == xs;
        [xs[0]] + rest
  }

  /** Removing index `i` keeps every other element, in order. */
  lemma RemoveAtShifts<T>(xs: seq<T>, i: int)
    requires 0 <= i < |xs|
    ensures var r := RemoveAt(xs, i);
            && |r| == |xs| - 1
            && (forall k | 0 <= k < i :: r[k] == xs[k])
            && (forall k | i <= k < |r| :: r[k] == xs[k + 1])
  {
  }

  function DeleteHistoryItem(s: AppState, i: int): (r: AppState)
    ensures r.history == RemoveAt(s.history, i)
    ensures r.(history := s.history) == s
  {
    s.(history := RemoveAt(s.history, i))
  }

  function DeleteHit(s: AppState, i: int): (r: AppState)
    ensures r.hits == RemoveAt(s.hits, i)
    ensures r.(hits := s.hits) == s
  {
    s.(hits := RemoveAt(s.hits, i))
  }

  function DeleteRectification(s: AppState, i: int): (r: AppState)
    ensures r.rects == RemoveAt(s.rects, i)
    ensures r.(rects := s.rects) == s
  {
    s.(rects := RemoveAt(s.rects, i))
  }

  /** Deleting an archive entry keeps the archive made of digit rows. */
  lemma DeleteKeepsValid(s: AppState, i: int)
    requires Valid(s)
    ensures Valid(DeleteHistoryItem(s, i))
  {
    var h := RemoveAt(s.history, i);
    assert forall k | 0 <= k < |h| :: h[k] in s.history;
  }

  // ---------------------------------------------------------------------------
  // Settings.
  // ---------------------------------------------------------------------------

  /** The entropy slider: 0 to 1. */
  function SetEntropy(s: AppState, e: real): (r: AppState)
    requires ValidEntropy(e)
    ensures r.settings == Settings(e, s.settings.voiceEnabled)
    ensures r.(settings := s.settings) == s
  {
    s.(settings := s.settings.(entropy := e))
  }

  function ToggleVoice(s: AppState): (r: AppState)
    ensures r.settings == Settings(s.settings.entropy, !s.settings.voiceEnabled)
    ensures r.(settings := s.settings) == s
  {
    s.(settings := s.settings.(voiceEnabled := !s.settings.voiceEnabled))
  }

  /** The voice button is a toggle: pressing it twice changes nothing. */
  lemma ToggleVoiceTwice(s: AppState)
    ensures ToggleVoice(ToggleVoice(s)) == s
  {
  }

  // ---------------------------------------------------------------------------
  // All events together.
  // ---------------------------------------------------------------------------

  datatype Event =
    | Generate
    | Finish(draws: seq<Draw>)
    | PasteThird(v: seq<string>)
    | EditThird(index: nat, val: string)
    | ClearThird
    | Hit(id: string, value: string, kind: HitKind, position: int, status: Option<HitStatus>, now: int)
    | Rectify(id: string, generated: string, actual: string, kind: HitKind, rankLabel: string, now: int)
    | DeleteArchived(i: int)
    | DeleteHitRecord(i: int)
    | DeleteRectificationRecord(i: int)
    | ClearArchive
    | ClearHits
    | ClearRectifications
    | SetEntropyTo(e: real)
    | ToggleVoiceOutput

  /** When an event can be handled: a completion needs a pending generation and a
      cycle's draws, and the digit conversions need digit text. */
  predicate Enabled(s: AppState, e: Event) {
    match e
    case Generate => !Guarded(s) ==> DigitModules([s.m1, s.m2, s.m3])
    case Finish(draws) =>
      s.pending.Some? && PendingOk(s.pending.value) && |draws| == CycleDraws && ValidDraws(draws)
    case PasteThird(v) => DigitLines(v)
    case EditThird(index, _) => index < |s.m3|
    case SetEntropyTo(x) => ValidEntropy(x)
    case _ => true
  }

  /** One handler of the panel. Only a paste grows the archive, and never past 250;
      only a completion locks and only a paste or an edit of the third module
      unlocks; the settings change only through the entropy slider and the voice
      toggle. */
  function Apply(s: AppState, e: Event): (r: AppState)
    requires Enabled(s, e)
    ensures |s.history| <= HistoryCap ==> |r.history| <= HistoryCap
    ensures !e.PasteThird? ==> |r.history| <= |s.history|
    ensures !s.isLocked && r.isLocked ==> e.Finish?
    ensures s.isLocked && !r.isLocked ==> e.PasteThird? || e.EditThird?
    ensures !e.SetEntropyTo? && !e.ToggleVoiceOutput? ==> r.settings == s.settings
  {
    match e
    case Generate => Start(s)
    case Finish(draws) => Complete(s, draws)
    case PasteThird(v) => PasteM3(s, v)
    case EditThird(index, val) => EditM3(s, index, val)
    case ClearThird => ClearM3(s)
    case Hit(id, value, kind, position, status, now) => MarkHit(s, id, value, kind, position, status, now)
    case Rectify(id, generated, actual, kind, rankLabel, now) => ManualRectify(s, id, generated, actual, kind, rankLabel, now)
    case DeleteArchived(i) => DeleteHistoryItem(s, i)
    case DeleteHitRecord(i) => DeleteHit(s, i)
    case DeleteRectificationRecord(i) => DeleteRectification(s, i)
    case ClearArchive => s.(history := [])
    case ClearHits => s.(hits := [])
    case ClearRectifications => s.(rects := [])
    case SetEntropyTo(x) => SetEntropy(s, x)
    case ToggleVoiceOutput => ToggleVoice(s)
  }

  /** Every event keeps the state valid. */
  lemma ApplyPreservesValid(s: AppState, e: Event)
    requires Valid(s) && Enabled(s, e)
    ensures Valid(Apply(s, e))
  {
    match e {
      case Generate =>
        if !Guarded(s) {
          DigitModulesAreDigitSets(s);
        }
      case PasteThird(v) =>
        var h := Archive(ToDigitSet(v), s.history);
        assert forall k | 1 <= k < |h| :: h[k] in s.history;
      case DeleteArchived(i) =>
        DeleteKeepsValid(s, i);
      case _ =>
    }
  }

  /** Only a completion locks the panel, and only a paste or an edit of the third
      module unlocks it. */
  lemma LockChanges(s: AppState, e: Event)
    requires Valid(s) && Enabled(s, e)
    ensures !s.isLocked && Apply(s, e).isLocked ==> e.Finish?
    ensures s.isLocked && !Apply(s, e).isLocked ==> e.PasteThird? || e.EditThird?
  {
  }

  /** The archive never grows past 250 through a paste, and no other event adds to it. */
  lemma ArchiveBounded(s: AppState, e: Event)
    requires Enabled(s, e)
    ensures |s.history| <= HistoryCap ==> |Apply(s, e).history| <= HistoryCap
    ensures !e.PasteThird? ==> |Apply(s, e).history| <= |s.history|
  {
  }
}
