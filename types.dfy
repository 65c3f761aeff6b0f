/** The records shared by the profile store and the onboarding wizard:
    a farmer's profile, the events of its activity history, and the
    partial profile that onboarding fills in field by field. */
module Types {

  datatype Option<T> = None | Some(value: T)

  /** The three interface languages. */
  datatype Language = En | Hi | Te

  /** The kinds of activity that can be recorded in a profile's history. */
  datatype EventType = Diagnosis | NpkUpdate | CropChange | OnboardingDone | AiConsult

  /** One entry of a profile's history. `metadata` is the optional opaque
      payload (the AI result behind the event), kept as its serialised text. */
  datatype HistoryEvent = HistoryEvent(
    id: string,
    timestamp: string,
    kind: EventType,
    title: string,
    details: string,
    metadata: Option<string>)

  /** What a caller hands to the store when recording an event: a history
      event without its `id` and `timestamp`, which the store generates. */
  datatype EventDetails = EventDetails(
    kind: EventType,
    title: string,
    details: string,
    metadata: Option<string>)

  /** A geographic position; the coordinates are floating-point numbers in
      the application and nothing numeric is claimed about them here. */
  datatype Location = Location(lat: real, lng: real, address: Option<string>)

  /** A stored profile. `location`, `currentCrop` and `history` may be
      absent in a stored record; the store treats an absent history as empty. */
  datatype FarmerProfile = FarmerProfile(
    email: string,
    language: Language,
    location: Option<Location>,
    fieldSize: real,
    soilType: string,
    waterSource: string,
    currentCrop: Option<string>,
    onboarded: bool,
    lastSync: string,
    history: Option<seq<HistoryEvent>>)

  /** A profile of which any field may be missing (`None` = key absent):
      both the onboarding draft and an update merged into it. */
  datatype PartialProfile = PartialProfile(
    email: Option<string>,
    language: Option<Language>,
    location: Option<Location>,
    fieldSize: Option<real>,
    soilType: Option<string>,
    waterSource: Option<string>,
    currentCrop: Option<string>,
    onboarded: Option<bool>,
    lastSync: Option<string>,
    history: Option<seq<HistoryEvent>>)

  /** The partial profile with no field present. */
  const NoFields: PartialProfile :=
    PartialProfile(None, None, None, None, None, None, None, None, None, None)

  function Min(a: int, b: int): int {
    if a <= b then a else b
  }
}
