/** The onboarding wizard: a step counter from 0 (the start page) to
    FINAL_STEP (the finish page) and a draft profile the steps fill in.
    Leaving the last step hands the draft, marked onboarded, to the
    application. */
module Onboarding {
  import opened Types

  /** The finish page; steps 1 to 4 collect language, location, field
      details and crop. */
  const FINAL_STEP: int := 5

  // ---------------------------------------------------------------------
  // Merging an update into the draft (object spread, later keys win)
  // ---------------------------------------------------------------------

  function Override<T>(current: Option<T>, update: Option<T>): Option<T>
  {
    if update.Some? then update else current
  }

  /** The draft `prev` with every field present in `u` replaced by `u`'s. */
  function Merge(prev: PartialProfile, u: PartialProfile): PartialProfile
  {
    PartialProfile(
      Override(prev.email, u.email),
      Override(prev.language, u.language),
      Override(prev.location, u.location),
      Override(prev.fieldSize, u.fieldSize),
      Override(prev.soilType, u.soilType),
      Override(prev.waterSource, u.waterSource),
      Override(prev.currentCrop, u.currentCrop),
      Override(prev.onboarded, u.onboarded),
      Override(prev.lastSync, u.lastSync),
      Override(prev.history, u.history))
  }

  /** The keys a profile object can carry. */
  datatype FieldName =
    EmailKey | LanguageKey | LocationKey | FieldSizeKey | SoilTypeKey |
    WaterSourceKey | CurrentCropKey | OnboardedKey | LastSyncKey | HistoryKey

  /** The value held under a key. */
  datatype FieldValue =
    | Text(text: string)
    | Lang(lang: Language)
    | Place(place: Location)
    | Number(number: real)
    | Flag(flag: bool)
    | Events(events: seq<HistoryEvent>)

  const ALL_KEYS: set<FieldName> :=
    {EmailKey, LanguageKey, LocationKey, FieldSizeKey, SoilTypeKey,
     WaterSourceKey, CurrentCropKey, OnboardedKey, LastSyncKey, HistoryKey}

  function Wrap<T>(o: Option<T>, f: T -> FieldValue): Option<FieldValue>
  {
    match o
    case None => None
    case Some(v) => Some(f(v))
  }

  /** The value `p` holds under key `k`, if the key is present. */
  function Field(p: PartialProfile, k: FieldName): Option<FieldValue>
  {
    match k
    case EmailKey => Wrap(p.email, s => Text(s))
    case LanguageKey => Wrap(p.language, l => Lang(l))
    case LocationKey => Wrap(p.location, l => Place(l))
    case FieldSizeKey => Wrap(p.fieldSize, r => Number(r))
    case SoilTypeKey => Wrap(p.soilType, s => Text(s))
    case WaterSourceKey => Wrap(p.waterSource, s => Text(s))
    case CurrentCropKey => Wrap(p.currentCrop, s => Text(s))
    case OnboardedKey => Wrap(p.onboarded, b => Flag(b))
    case LastSyncKey => Wrap(p.lastSync, s => Text(s))
    case HistoryKey => Wrap(p.history, h => Events(h))
  }

  /** `p` seen as a JavaScript object: the map from each present key to its
      value. */
  function Fields(p: PartialProfile): map<FieldName, FieldValue>
  {
    map k | k in ALL_KEYS && Field(p, k).Some? :: Field(p, k).value
  }

  lemma FieldOfMerge(prev: PartialProfile, u: PartialProfile, k: FieldName)
    ensures Field(Merge(prev, u), k) == if Field(u, k).Some? then Field(u, k) else Field(prev, k)
  {
  }

  /** `{ ...prev, ...u }`: the merged object has the keys of both, and on a
      key present in both the update's value wins, which is exactly map
      union with the update on the right. */
  lemma MergeIsSpread(prev: PartialProfile, u: PartialProfile)
    ensures Fields(Merge(prev, u)) == Fields(prev) + Fields(u)
  {
    forall k | k in ALL_KEYS {
      FieldOfMerge(prev, u, k);
    }
  }

  /** The object view loses nothing: two profiles with the same keys and
      values are the same profile, so MergeIsSpread pins Merge down. */
  lemma FieldsDetermineProfile(p: PartialProfile, q: PartialProfile)
    requires Fields(p) == Fields(q)
    ensures p == q
  {
    forall k | k in ALL_KEYS
      ensures Field(p, k) == Field(q, k)
    {
      assert Field(p, k).Some? <==> k in Fields(p);
      assert Field(q, k).Some? <==> k in Fields(q);
    }
    assert Field(p, EmailKey) == Field(q, EmailKey);
    assert Field(p, LanguageKey) == Field(q, LanguageKey);
    assert Field(p, LocationKey) == Field(q, LocationKey);
    assert Field(p, FieldSizeKey) == Field(q, FieldSizeKey);
    assert Field(p, SoilTypeKey) == Field(q, SoilTypeKey);
    assert Field(p, WaterSourceKey) == Field(q, WaterSourceKey);
    assert Field(p, CurrentCropKey) == Field(q, CurrentCropKey);
    assert Field(p, OnboardedKey) == Field(q, OnboardedKey);
    assert Field(p, LastSyncKey) == Field(q, LastSyncKey);
    assert Field(p, HistoryKey) == Field(q, HistoryKey);
  }

  /** Merging an update with no fields changes nothing; merging the same
      update twice is merging it once; two merges in a row are one merge of
      the combined update. */
  lemma MergeAlgebra(p: PartialProfile, u: PartialProfile, v: PartialProfile)
    ensures Merge(p, NoFields) == p
    ensures Merge(Merge(p, u), u) == Merge(p, u)
    ensures Merge(Merge(p, u), v) == Merge(p, Merge(u, v))
  {
  }

  // ---------------------------------------------------------------------
  // Steps
  // ---------------------------------------------------------------------

  /** The draft the wizard starts from; the soil, water source and crop
      defaults are the first entries of the application's suggestion lists. */
  function InitialDraft(soil: string, water: string, crop: string): PartialProfile
  {
    NoFields.(language := Some(En), fieldSize := Some(1.0), soilType := Some(soil),
              waterSource := Some(water), currentCrop := Some(crop), onboarded := Some(false))
  }

  /** What the wizard hands over on completion: the draft, marked onboarded. */
  function Completed(draft: PartialProfile): (r: PartialProfile)
    ensures r.onboarded == Some(true)
    ensures r.(onboarded := draft.onboarded) == draft
  {
    draft.(onboarded := Some(true))
  }

  function StepAfterNext(step: int): int
  {
    if step < FINAL_STEP then step + 1 else step
  }

  function StepAfterPrev(step: int): int
  {
    if step > 0 then step - 1 else step
  }

  datatype Nav = Next | Prev

  /** The step reached from `step` by the navigation clicks `cmds`, in order. */
  function Navigate(step: int, cmds: seq<Nav>): int
    decreases |cmds|
  {
    if cmds == [] then step
    else Navigate(if cmds[0] == Next then StepAfterNext(step) else StepAfterPrev(step), cmds[1..])
  }

  /** Any sequence of clicks keeps the step between the start and the
      finish page. */
  lemma {:induction false} NavigateStaysInRange(step: int, cmds: seq<Nav>)
    requires 0 <= step <= FINAL_STEP
    ensures 0 <= Navigate(step, cmds) <= FINAL_STEP
    decreases |cmds|
  {
    if cmds != [] {
      NavigateStaysInRange(if cmds[0] == Next then StepAfterNext(step) else StepAfterPrev(step), cmds[1..]);
    }
  }

  /** `k` Next clicks from `step` reach step + k, stopping at the finish
      page; `k` Prev clicks reach step - k, stopping at the start page. */
  lemma {:induction false} RepeatedClicks(step: int, k: nat)
    requires 0 <= step <= FINAL_STEP
    ensures Navigate(step, seq(k, _ => Next)) == Min(step + k, FINAL_STEP)
    ensures Navigate(step, seq(k, _ => Prev)) == if step - k >= 0 then step - k else 0
    decreases k
  {
    if k > 0 {
      RepeatedClicks(StepAfterNext(step), k - 1);
      RepeatedClicks(StepAfterPrev(step), k - 1);
      assert seq(k, _ => Next)[1..] == seq(k - 1, _ => Next);
      assert seq(k, _ => Prev)[1..] == seq(k - 1, _ => Prev);
    }
  }

  // ---------------------------------------------------------------------
  // Progress indicator
  // ---------------------------------------------------------------------

  /** The progress bars are shown on the collecting steps only. */
  predicate ShowsProgress(step: int)
  {
    step > 0 && step < FINAL_STEP
  }

  /** The four bars, for steps 1 to 4: bar s is lit when step >= s. */
  function ProgressBars(step: int): seq<bool>
  {
    seq(4, i => step >= i + 1)
  }

  function CountLit(bars: seq<bool>): nat
  {
    if bars == [] then 0 else (if bars[0] then 1 else 0) + CountLit(bars[1..])
  }

  /** Within the step range the bars show on steps 1 to 4 only; when they
      show, the lit bars are a leading run whose length is the step. */
  lemma ProgressIndicator(step: int)
    requires 0 <= step <= FINAL_STEP
    ensures ShowsProgress(step) <==> step != 0 && step != FINAL_STEP
    ensures forall i, j :: 0 <= i < j < 4 && ProgressBars(step)[j] ==> ProgressBars(step)[i]
    ensures ShowsProgress(step) ==> CountLit(ProgressBars(step)) == step
  {
    var b := ProgressBars(step);
    assert b == [step >= 1, step >= 2, step >= 3, step >= 4];
    assert b[1..] == [step >= 2, step >= 3, step >= 4];
    assert b[1..][1..] == [step >= 3, step >= 4];
    assert b[1..][1..][1..] == [step >= 4];
    assert b[1..][1..][1..][1..] == [];
    assert CountLit(b[1..][1..][1..]) == if step >= 4 then 1 else 0;
    assert CountLit(b[1..][1..]) == CountLit(b[1..][1..][1..]) + if step >= 3 then 1 else 0;
    assert CountLit(b[1..]) == CountLit(b[1..][1..]) + if step >= 2 then 1 else 0;
    assert CountLit(b) == CountLit(b[1..]) + if step >= 1 then 1 else 0;
  }

  // ---------------------------------------------------------------------
  // The wizard
  // ---------------------------------------------------------------------

  /** What the browser's geolocation request produced. */
  datatype GeoOutcome = GeolocationUnavailable | PositionDenied | Position(lat: real, lng: real)

  class Wizard {
    var step: int
    var draft: PartialProfile

    ghost predicate Valid()
      reads this
    {
      0 <= step <= FINAL_STEP
    }

    /** The start page, with the default draft. */
    constructor (soil: string, water: string, crop: string)
      ensures Valid()
      ensures step == 0 && draft == InitialDraft(soil, water, crop)
      ensures draft.language == Some(En) && draft.fieldSize == Some(1.0) && draft.onboarded == Some(false)
      ensures draft.email.None? && draft.location.None? && draft.history.None? && draft.lastSync.None?
    {
      step := 0;
      draft := InitialDraft(soil, water, crop);
    }

    /** Merges `u` into the draft. */
    method UpdateProfile(u: PartialProfile)
      modifies this
      ensures step == old(step)
      ensures draft == Merge(old(draft), u)
      ensures Fields(draft) == Fields(old(draft)) + Fields(u)
    {
      MergeIsSpread(draft, u);
      draft := Merge(draft, u);
    }

    /** The Next action as seen by a handler that captured the draft `seen`:
        below the finish page it moves one step on; on the finish page it
        stays and completes with `seen`. */
    method Advance(seen: PartialProfile) returns (completed: Option<PartialProfile>)
      requires Valid()
      modifies this
      ensures Valid()
      ensures draft == old(draft)
      ensures step == StepAfterNext(old(step))
      ensures old(step) < FINAL_STEP ==> step == old(step) + 1 && completed.None?
      ensures old(step) == FINAL_STEP ==> step == FINAL_STEP && completed == Some(Completed(seen))
    {
      if step < FINAL_STEP {
        step := step + 1;
        completed := None;
      } else {
        completed := Some(Completed(seen));
      }
    }

    method NextStep() returns (completed: Option<PartialProfile>)
      requires Valid()
      modifies this
      ensures Valid()
      ensures draft == old(draft)
      ensures step == StepAfterNext(old(step))
      ensures old(step) < FINAL_STEP ==> step == old(step) + 1 && completed.None?
      ensures old(step) == FINAL_STEP ==> step == FINAL_STEP && completed == Some(Completed(draft))
    {
      completed := Advance(draft);
    }

    /** Moves one step back, never below the start page. */
    method PrevStep()
      requires Valid()
      modifies this
      ensures Valid()
      ensures draft == old(draft)
      ensures step == StepAfterPrev(old(step))
      ensures old(step) > 0 ==> step == old(step) - 1
      ensures old(step) == 0 ==> step == 0
    {
      if step > 0 {
        step := step - 1;
      }
    }

    /** The location button: on a position, records it (without an address)
        in the draft; in every case then advances as Next does, the handler
        completing, if at all, with the draft it captured when clicked. */
    method HandleLocation(outcome: GeoOutcome) returns (completed: Option<PartialProfile>)
      requires Valid()
      modifies this
      ensures Valid()
      ensures step == StepAfterNext(old(step))
      ensures outcome.Position? ==>
        draft == old(draft).(location := Some(Location(outcome.lat, outcome.lng, None)))
      ensures !outcome.Position? ==> draft == old(draft)
      ensures completed == if old(step) < FINAL_STEP then None else Some(Completed(old(draft)))
    {
      var seen := draft;
      if outcome.Position? {
        UpdateProfile(NoFields.(location := Some(Location(outcome.lat, outcome.lng, None))));
      }
      completed := Advance(seen);
    }

    /** The finish page's button: hands over the draft, marked onboarded,
        and changes nothing. */
    method GoToDashboard() returns (completed: PartialProfile)
      ensures completed.onboarded == Some(true)
      ensures completed.(onboarded := draft.onboarded) == draft
    {
      completed := Completed(draft);
    }
  }

  /** A farmer's way through the wizard: start, pick Hindi, locate the
      farm, step back and forth, pick a crop, and finish. */
  method OnboardingScenario(lat: real, lng: real)
  {
    var w := new Wizard("Alluvial", "Well", "Rice");
    var done := w.NextStep();
    w.UpdateProfile(NoFields.(language := Some(Hi)));
    done := w.NextStep();
    assert w.step == 2 && ShowsProgress(w.step);
    done := w.HandleLocation(Position(lat, lng));
    assert w.step == 3 && done.None? && w.draft.location == Some(Location(lat, lng, None));
    w.PrevStep();
    done := w.HandleLocation(PositionDenied);
    assert w.step == 3;
    done := w.NextStep();
    w.UpdateProfile(NoFields.(currentCrop := Some("")));
    done := w.NextStep();
    assert w.step == FINAL_STEP && done.None? && !ShowsProgress(w.step);
    var profile := w.GoToDashboard();
    assert profile.onboarded == Some(true) && profile.language == Some(Hi);
    assert profile.currentCrop == Some("") && profile.soilType == Some("Alluvial");
  }
}
