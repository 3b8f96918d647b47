/** The record shapes shared by the engine, the chat bot and the data manager, and the
    boundary validators that reject bad requests before they reach the engine. */
module Models {
  import opened Wrappers

  /** The closed set of intended uses; the enum's string values are the lower-case names. */
  datatype UsageType = Gaming | Business | Student | Creative | Programming | General

  /** Declaration order of the enum. */
  const UsageTypes: seq<UsageType> := [Gaming, Business, Student, Creative, Programming, General]

  function UsageValue(u: UsageType): string {
    match u
    case Gaming => "gaming"
    case Business => "business"
    case Student => "student"
    case Creative => "creative"
    case Programming => "programming"
    case General => "general"
  }

  /** `UsageType(s)`: the member whose value is `s`, or a validation failure. */
  function ParseUsageType(s: string): (r: Option<UsageType>)
    ensures r.Some? ==> UsageValue(r.value) == s
    ensures r.None? ==> forall u :: UsageValue(u) != s
  {
    if s == "gaming" then Some(Gaming)
    else if s == "business" then Some(Business)
    else if s == "student" then Some(Student)
    else if s == "creative" then Some(Creative)
    else if s == "programming" then Some(Programming)
    else if s == "general" then Some(General)
    else None
  }

  lemma UsageTypesAreExactlySix()
    ensures |UsageTypes| == 6
    ensures forall u :: u in UsageTypes
    ensures forall i, j :: 0 <= i < j < |UsageTypes| ==> UsageTypes[i] != UsageTypes[j]
    ensures forall u :: ParseUsageType(UsageValue(u)) == Some(u)
  {
    forall u ensures u in UsageTypes && ParseUsageType(UsageValue(u)) == Some(u) {
      match u
      case Gaming => assert UsageTypes[0] == u;
      case Business => assert UsageTypes[1] == u;
      case Student => assert UsageTypes[2] == u;
      case Creative => assert UsageTypes[3] == u;
      case Programming => assert UsageTypes[4] == u;
      case General => assert UsageTypes[5] == u;
    }
  }

  /** A catalog entry. Keys that a catalog dictionary may lack, or hold as `None`, are
      `Option`s; `score` is the key the engine adds to its copies. */
  datatype Laptop = Laptop(
    id: Option<string>,
    brand: string,
    model: string,
    price: real,
    processor: string,
    ram: int,
    storage: int,
    gpu: Option<string>,
    display: Option<string>,
    batteryLife: Option<real>,
    weight: Option<real>,
    os: Option<string>,
    score: Option<real>)

  /** `Laptop(id=..., brand=..., ...)` with only the required fields given. */
  function NewLaptop(id: string, brand: string, model: string, price: real, processor: string,
                     ram: int, storage: int): (l: Laptop)
    ensures l.id == Some(id) && l.brand == brand && l.model == model && l.price == price
    ensures l.processor == processor && l.ram == ram && l.storage == storage
    ensures l.gpu.None? && l.display.None? && l.batteryLife.None? && l.weight.None?
    ensures l.os.None? && l.score.None?
  {
    Laptop(Some(id), brand, model, price, processor, ram, storage, None, None, None, None, None, None)
  }

  datatype ValidationError = MissingId | BudgetNotPositive | RamTooSmall | StorageTooSmall | EmptyMessage

  /** `Laptop(**d)`: a dictionary without an `id` key is rejected; everything else is kept. */
  function ValidateLaptop(d: Laptop): (r: Result<Laptop, ValidationError>)
    ensures r.Ok? <==> d.id.Some?
    ensures r.Ok? ==> r.value == d
    ensures r.Err? ==> r.error == MissingId
  {
    if d.id.None? then Err(MissingId) else Ok(d)
  }

  datatype UserPreference = UserPreference(
    budget: real,
    usageType: UsageType,
    brandPreference: Option<string>,
    minRam: Option<int>,
    minStorage: Option<int>,
    preferGpu: bool,
    weightPreference: Option<string>,
    osPreference: Option<string>)

  /** `UserPreference(budget=..., usage_type=...)`: every optional field takes its default. */
  function DefaultPreference(budget: real, usageType: UsageType): (p: UserPreference)
    ensures p.budget == budget && p.usageType == usageType
    ensures p.brandPreference.None? && p.minRam.None? && p.minStorage.None?
    ensures !p.preferGpu && p.weightPreference.None? && p.osPreference.None?
  {
    UserPreference(budget, usageType, None, None, None, false, None, None)
  }

  /** The three field validators, each contributing its error in field order. */
  function PreferenceErrors(p: UserPreference): (errs: seq<ValidationError>)
    ensures BudgetNotPositive in errs <==> p.budget <= 0.0
    ensures RamTooSmall in errs <==> (p.minRam.Some? && p.minRam.value < 4)
    ensures StorageTooSmall in errs <==> (p.minStorage.Some? && p.minStorage.value < 128)
    ensures forall e :: e in errs ==> e in {BudgetNotPositive, RamTooSmall, StorageTooSmall}
  {
    (if p.budget <= 0.0 then [BudgetNotPositive] else [])
    + (if p.minRam.Some? && p.minRam.value < 4 then [RamTooSmall] else [])
    + (if p.minStorage.Some? && p.minStorage.value < 128 then [StorageTooSmall] else [])
  }

  /** The validators of `UserPreference`: a non-positive budget, a `min_ram` below 4 or a
      `min_storage` below 128 is rejected; a missing `min_ram` or `min_storage` is accepted. */
  function ValidateUserPreference(p: UserPreference): (r: Result<UserPreference, seq<ValidationError>>)
    ensures r.Ok? <==> p.budget > 0.0 && (p.minRam.None? || p.minRam.value >= 4)
                       && (p.minStorage.None? || p.minStorage.value >= 128)
    ensures r.Ok? ==> r.value == p
    ensures r.Err? ==> r.error != [] && r.error == PreferenceErrors(p)
  {
    var errs := PreferenceErrors(p);
    if errs == [] then Ok(p) else Err(errs)
  }

  datatype ChatRequest = ChatRequest(message: string, conversationId: Option<string>)

  /** The validator of `ChatRequest`: an empty message is rejected; any other text, white
      space alone included, is accepted. */
  function ValidateChatRequest(message: string, conversationId: Option<string>): (r: Result<ChatRequest, ValidationError>)
    ensures r.Ok? <==> |message| >= 1
    ensures r.Ok? ==> r.value == ChatRequest(message, conversationId)
    ensures r.Err? ==> r.error == EmptyMessage
  {
    if |message| < 1 then Err(EmptyMessage) else Ok(ChatRequest(message, conversationId))
  }
}
