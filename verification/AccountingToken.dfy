/** Signed accounting tokens: the values and the normalised model profile they carry, how they are
    issued, and how they are verified. */
module AccountingToken {
  import opened Basics
  import opened Base64Url

  datatype Float = Finite(amount: real) | PlusInfinity | Unordered

  /** A decoded document; object keys are the ones that the tokens know, or any other name. */
  datatype Value =
    | Null
    | Flag(flag: bool)
    | Integer(whole: int)
    | Number(number: Float)
    | Text(text: string)
    | Record(fields: map<Key, Value>)

  datatype Key =
    | ModelId | Provider | InputPrice | OutputPrice
    | ProviderNativeModelId | NativeModelId | ProfileModel | ProfileAlias | ModelOwner | ExecutionProvider
    | ProfileHydrated | IsOpenSource | SupportsTools | SupportsJson | SupportsReasoningEffort
    | ContextKTokens | LatencyMs | ModelSize | CacheRead | CacheWrite
    | CacheReadAlias | CacheWriteAlias | ModelCost | Pricing | PricingCacheRead | PricingCacheWrite
    | Version | UserId | RouteId | RouteName | ModelProfile | RequestWeight | RoutingCallId
    | WorkflowRunId | BudgetScopeId | ReservationId | MaxOutputTokens | CallLimitUsd
    | Other(name: string)

  /** The library functions that the tokens rest on. */
  datatype Library = Library(
    space: char -> bool,
    lower: char -> char,
    show: Value -> string,
    parseFloat: string -> Option<Float>,
    render: Value -> seq<Byte>,
    parse: seq<Byte> -> Option<Value>,
    sign: seq<Byte> -> seq<Byte>)
  {
    /** Lower-casing is idempotent and leaves blanks alone; neither a full stop nor a base64 letter is blank. */
    ghost predicate Sound() {
      && (forall c {:trigger lower(lower(c))} :: lower(lower(c)) == lower(c))
      && (forall c {:trigger space(lower(c))} :: space(lower(c)) == space(c))
      && (forall c | space(c) :: c != '.' && Sextet(c).None?)
    }
  }

  // ---------------------------------------------------------------- text

  function StripLeft(lib: Library, s: string): string {
    if s != "" && lib.space(s[0]) then StripLeft(lib, s[1..]) else s
  }

  function StripRight(lib: Library, s: string): string {
    if s != "" && lib.space(s[|s| - 1]) then StripRight(lib, s[..|s| - 1]) else s
  }

  function Strip(lib: Library, s: string): string {
    StripRight(lib, StripLeft(lib, s))
  }

  function Lower(lib: Library, s: string): (t: string)
    ensures |t| == |s| && forall i | 0 <= i < |s| :: t[i] == lib.lower(s[i])
  {
    seq(|s|, i requires 0 <= i < |s| => lib.lower(s[i]))
  }

  /** How a provider name is normalised. */
  function Clean(lib: Library, s: string): string {
    Lower(lib, Strip(lib, s))
  }

  predicate Trimmed(lib: Library, s: string) {
    s == "" || (!lib.space(s[0]) && !lib.space(s[|s| - 1]))
  }

  lemma TrimmedIsStripped(lib: Library, s: string)
    requires Trimmed(lib, s)
    ensures Strip(lib, s) == s
  {
  }

  lemma {:induction false} StripLeftTrims(lib: Library, s: string)
    ensures var t := StripLeft(lib, s); t == "" || !lib.space(t[0])
    decreases |s|
  {
    if s != "" && lib.space(s[0]) { StripLeftTrims(lib, s[1..]); }
  }

  lemma {:induction false} StripRightTrims(lib: Library, s: string)
    ensures var t := StripRight(lib, s);
            t == "" || (!lib.space(t[|t| - 1]) && t[0] == s[0] && s != "")
    decreases |s|
  {
    if s != "" && lib.space(s[|s| - 1]) { StripRightTrims(lib, s[..|s| - 1]); }
  }

  lemma StripTrims(lib: Library, s: string)
    ensures Trimmed(lib, Strip(lib, s)) && Strip(lib, Strip(lib, s)) == Strip(lib, s)
  {
    StripLeftTrims(lib, s);
    StripRightTrims(lib, StripLeft(lib, s));
    TrimmedIsStripped(lib, Strip(lib, s));
  }

  /** Stripping removes blanks from the two ends and nothing else. */
  lemma {:induction false} StripRemovesBlanks(lib: Library, s: string) returns (before: nat, after: nat)
    ensures before <= after <= |s| && Strip(lib, s) == s[before..after]
    ensures forall i | 0 <= i < before || after <= i < |s| :: lib.space(s[i])
  {
    before := LeftBlanks(lib, s);
    var n := RightBlanks(lib, s[before..]);
    after := before + n;
    assert s[before..][..n] == s[before..after];
    forall i | after <= i < |s| ensures lib.space(s[i]) { assert s[i] == s[before..][i - before]; }
  }

  lemma {:induction false} LeftBlanks(lib: Library, s: string) returns (n: nat)
    ensures n <= |s| && StripLeft(lib, s) == s[n..] && forall i | 0 <= i < n :: lib.space(s[i])
    decreases |s|
  {
    n := 0;
    if s != "" && lib.space(s[0]) {
      var m := LeftBlanks(lib, s[1..]);
      n := m + 1;
      forall i | 0 <= i < n ensures lib.space(s[i]) { if i > 0 { assert s[i] == s[1..][i - 1]; } }
    }
  }

  lemma {:induction false} RightBlanks(lib: Library, s: string) returns (n: nat)
    ensures n <= |s| && StripRight(lib, s) == s[..n] && forall i | n <= i < |s| :: lib.space(s[i])
    decreases |s|
  {
    n := |s|;
    if s != "" && lib.space(s[|s| - 1]) {
      n := RightBlanks(lib, s[..|s| - 1]);
      forall i | n <= i < |s| ensures lib.space(s[i]) { if i < |s| - 1 { assert s[i] == s[..|s| - 1][i]; } }
    }
  }

  lemma CleanIsIdempotent(lib: Library, s: string)
    requires lib.Sound()
    ensures Strip(lib, Clean(lib, s)) == Clean(lib, s) == Lower(lib, Clean(lib, s))
    ensures Clean(lib, Clean(lib, s)) == Clean(lib, s)
  {
    StripTrims(lib, s);
    TrimmedIsStripped(lib, Clean(lib, s));
    assert Lower(lib, Clean(lib, s)) == Clean(lib, s);
  }

  // ---------------------------------------------------------------- numbers

  function ToFloat(lib: Library, v: Value): Option<Float> {
    match v
    case Null => None
    case Flag(b) => Some(Finite(if b then 1.0 else 0.0))
    case Integer(i) => Some(Finite(i as real))
    case Number(x) => Some(x)
    case Text(s) => lib.parseFloat(s)
    case Record(_) => None
  }

  /** A finite number, but never a flag. */
  function FiniteNumber(lib: Library, v: Value): Option<real> {
    if v.Flag? then None
    else match ToFloat(lib, v)
      case Some(Finite(r)) => Some(r)
      case _ => None
  }

  function PositiveNumber(lib: Library, v: Value): Option<real> {
    var r := FiniteNumber(lib, v);
    if r.Some? && r.value > 0.0 then r else None
  }

  /** The value when it reads as a float above zero, infinity included. */
  function PositiveFloat(lib: Library, v: Value): Option<Float> {
    match ToFloat(lib, v)
    case Some(Finite(r)) => if r > 0.0 then Some(Finite(r)) else None
    case Some(PlusInfinity) => Some(PlusInfinity)
    case _ => None
  }

  /** The float that a value reads as. */
  ghost predicate ReadsAs(lib: Library, v: Value, x: Float) {
    || (v == Flag(true) && x == Finite(1.0))
    || (v == Flag(false) && x == Finite(0.0))
    || (v.Integer? && x == Finite(v.whole as real))
    || v == Number(x)
    || (v.Text? && lib.parseFloat(v.text) == Some(x))
  }

  /** When a value counts as a number, as one above zero, and as a price. */
  lemma NumbersMean(lib: Library, v: Value, r: real)
    ensures FiniteNumber(lib, v) == Some(r) <==> !v.Flag? && ReadsAs(lib, v, Finite(r))
    ensures PositiveNumber(lib, v) == Some(r) <==> !v.Flag? && ReadsAs(lib, v, Finite(r)) && r > 0.0
    ensures PositiveFloat(lib, v) == Some(Finite(r)) <==> ReadsAs(lib, v, Finite(r)) && r > 0.0
    ensures PositiveFloat(lib, v) == Some(PlusInfinity) <==> ReadsAs(lib, v, PlusInfinity)
    ensures PositiveFloat(lib, v) != Some(Unordered)
  {
  }

  function Get(m: map<Key, Value>, k: Key): Value {
    if k in m then m[k] else Null
  }

  /** A cache price: the direct key, its alias, the nested cost table, then the per-token price list. */
  function CachePrice(lib: Library, model: map<Key, Value>, k: Key): (price: Option<Float>)
    requires k.CacheRead? || k.CacheWrite?
    ensures price.Some? ==> !price.value.Unordered?
  {
    var direct := PositiveFloat(lib, Get(model, k));
    var alias := PositiveFloat(lib, Get(model, if k.CacheRead? then CacheReadAlias else CacheWriteAlias));
    var cost := Get(model, ModelCost);
    var nested := if cost.Record? then PositiveFloat(lib, Get(cost.fields, k)) else None;
    var prices := Get(model, Pricing);
    var listed := if prices.Record?
      then PositiveFloat(lib, Get(prices.fields, if k.CacheRead? then PricingCacheRead else PricingCacheWrite))
      else None;
    if direct.Some? then direct
    else if alias.Some? then alias
    else if nested.Some? then nested
    else if listed.Some? && listed.value.Finite? then Some(Finite(listed.value.amount * MILLION))
    else listed
  }

  /** Where a cache price is looked for: in the model itself, under its other name, in the cost table, and last,
      for each single token, in the price list.  The first place with a price above zero decides. */
  lemma CachePriceMeaning(lib: Library, model: map<Key, Value>, k: Key)
    requires k.CacheRead? || k.CacheWrite?
    ensures var other, listed := if k == CacheRead then CacheReadAlias else CacheWriteAlias,
                                 if k == CacheRead then PricingCacheRead else PricingCacheWrite;
            var direct, alias := PositiveFloat(lib, Get(model, k)), PositiveFloat(lib, Get(model, other));
            var cost, prices := Get(model, ModelCost), Get(model, Pricing);
            var nested := if cost.Record? then PositiveFloat(lib, Get(cost.fields, k)) else None;
            var single := if prices.Record? then PositiveFloat(lib, Get(prices.fields, listed)) else None;
            var price := CachePrice(lib, model, k);
            && (direct.Some? ==> price == direct)
            && (direct.None? && alias.Some? ==> price == alias)
            && (direct.None? && alias.None? && nested.Some? ==> price == nested)
            && (direct.None? && alias.None? && nested.None? ==>
                  && (price.None? <==> single.None?)
                  && (price == Some(PlusInfinity) <==> single == Some(PlusInfinity))
                  && (forall r :: single == Some(Finite(r)) ==> price == Some(Finite(r * 1000000.0))))
  {
    hide PositiveFloat;
  }

  // ---------------------------------------------------------------- profiles

  predicate TextKey(k: Key) {
    || k.ProviderNativeModelId? || k.NativeModelId? || k.ProfileModel? || k.ProfileAlias? || k.ModelOwner?
    || k.ExecutionProvider?
  }

  predicate FlagKey(k: Key) {
    k.ProfileHydrated? || k.IsOpenSource? || k.SupportsTools? || k.SupportsJson? || k.SupportsReasoningEffort?
  }

  predicate NumberKey(k: Key) {
    k.ContextKTokens? || k.LatencyMs? || k.ModelSize? || k.CacheRead? || k.CacheWrite?
  }

  const NAMES: seq<Key> :=
    [ProviderNativeModelId, NativeModelId, ProfileModel, ProfileAlias, ModelOwner, ExecutionProvider]

  const SIZES: seq<Key> := [ContextKTokens, LatencyMs, ModelSize, CacheRead, CacheWrite]

  /** The copied fields, in the order in which they are read. */
  const FIELDS: seq<Key> :=
    NAMES + [ProfileHydrated, IsOpenSource] + SIZES + [SupportsTools, SupportsJson, SupportsReasoningEffort]

  datatype Fault = ProfileInvalid | ProfileIncomplete | IdentityMismatch | ClaimIncomplete | InvalidToken

  /** Text of an identity: empty, false, zero and missing values all read as no text. */
  function IdText(lib: Library, v: Value): string {
    var blank :=
      match v
      case Null => true
      case Flag(b) => !b
      case Integer(i) => i == 0
      case Number(x) => x == Finite(0.0)
      case Text(s) => s == ""
      case Record(m) => m == map[];
    if blank then "" else if v.Text? then v.text else lib.show(v)
  }

  lemma IdentitiesRead(lib: Library, v: Value)
    ensures v in {Null, Flag(false), Integer(0), Number(Finite(0.0)), Text(""), Record(map[])} ==> IdText(lib, v) == ""
    ensures v.Text? ==> IdText(lib, v) == v.text == ShownText(lib, v)
    ensures v !in {Null, Flag(false), Integer(0), Number(Finite(0.0)), Record(map[])} && !v.Text? ==>
              IdText(lib, v) == lib.show(v) == ShownText(lib, v)
  {
  }

  function ShownText(lib: Library, v: Value): string {
    if v.Text? then v.text else lib.show(v)
  }

  predicate Complete(lib: Library, model: map<Key, Value>, provider: string) {
    var inputPrice := FiniteNumber(lib, Get(model, InputPrice));
    var outputPrice := FiniteNumber(lib, Get(model, OutputPrice));
    && Strip(lib, IdText(lib, Get(model, ModelId))) != "" && Clean(lib, provider) != ""
    && inputPrice.Some? && inputPrice.value >= 0.0 && outputPrice.Some? && outputPrice.value >= 0.0
  }

  predicate Usable(lib: Library, model: map<Key, Value>, k: Key) {
    var v := Get(model, k);
    || v.Null?
    || ((NumberKey(k) ==> FiniteNumber(lib, v).Some?) && (FlagKey(k) ==> v.Flag?))
  }

  function CacheEntry(lib: Library, model: map<Key, Value>, k: Key): Option<Value> {
    if k.CacheRead? || k.CacheWrite? then
      var price := CachePrice(lib, model, k);
      if price.Some? then Some(Number(price.value)) else None
    else None
  }

  /** What an accepted profile holds under each key. */
  function Entry(lib: Library, model: map<Key, Value>, provider: string, k: Key): Option<Value> {
    var v := Get(model, k);
    if k.ModelId? then Some(Text(Strip(lib, IdText(lib, v))))
    else if k.Provider? then Some(Text(Clean(lib, provider)))
    else if k.InputPrice? || k.OutputPrice? then
      var r := FiniteNumber(lib, v);
      if r.Some? then Some(Number(Finite(r.value))) else None
    else if NumberKey(k) then
      var r := FiniteNumber(lib, v);
      if r.Some? then Some(Number(Finite(r.value))) else CacheEntry(lib, model, k)
    else if FlagKey(k) then
      if v.Flag? then Some(v) else None
    else if TextKey(k) then
      if v != Null && Strip(lib, ShownText(lib, v)) != "" then Some(Text(Strip(lib, ShownText(lib, v)))) else None
    else None
  }

  predicate BaseKey(k: Key) {
    k.ModelId? || k.Provider? || k.InputPrice? || k.OutputPrice?
  }

  const PROFILE_KEYS: seq<Key> := [ModelId, Provider, InputPrice, OutputPrice] + FIELDS

  function ProfileOf(lib: Library, model: map<Key, Value>, provider: string): map<Key, Value> {
    map k | k in PROFILE_KEYS && Entry(lib, model, provider, k).Some? :: Entry(lib, model, provider, k).value
  }

  function SignedProfile(lib: Library, model: Value, provider: string): Result<map<Key, Value>, Fault> {
    if !model.Record? then Err(ProfileInvalid)
    else if !Complete(lib, model.fields, provider) then Err(ProfileIncomplete)
    else if exists k | k in FIELDS :: !Usable(lib, model.fields, k) then Err(ProfileInvalid)
    else Ok(ProfileOf(lib, model.fields, provider))
  }

  ghost predicate Holds(m: map<Key, Value>, k: Key, entry: Option<Value>) {
    (k in m <==> entry.Some?) && (k in m ==> m[k] == entry.value)
  }

  /** The listed fields are exactly the text, flag and number keys. */
  lemma FieldsAreListed(k: Key)
    ensures k in FIELDS <==> TextKey(k) || FlagKey(k) || NumberKey(k)
    ensures k in FIELDS ==> !BaseKey(k)
    ensures NumberKey(k) ==> !FlagKey(k)
  {
    hide NAMES, SIZES;
    NamesAndSizes(k);
  }

  lemma NamesAndSizes(k: Key)
    ensures k in NAMES <==> TextKey(k)
    ensures k in SIZES <==> NumberKey(k)
  {
    assert k in NAMES <==> exists i | 0 <= i < 6 :: NAMES[i] == k;
    assert k in SIZES <==> exists i | 0 <= i < 5 :: SIZES[i] == k;
  }

  lemma ProfileHolds(lib: Library, model: map<Key, Value>, provider: string, k: Key)
    ensures Holds(ProfileOf(lib, model, provider), k, Entry(lib, model, provider, k))
  {
    hide Strip, Clean, FiniteNumber, CacheEntry, FIELDS;
    FieldsAreListed(k);
  }

  /** What the profile under construction holds once the first fields have been read. */
  ghost function Stage(lib: Library, model: map<Key, Value>, provider: string, k: Key, done: nat): Option<Value>
    requires done <= |FIELDS|
  {
    if BaseKey(k) || k in FIELDS[..done] then Entry(lib, model, provider, k) else CacheEntry(lib, model, k)
  }

  ghost predicate AtStage(
    lib: Library, model: map<Key, Value>, provider: string, profile: map<Key, Value>, done: nat)
  {
    done <= |FIELDS| && forall k :: Holds(profile, k, Stage(lib, model, provider, k, done))
  }

  /** The endpoint's normalisation: base fields, cache prices, then one pass over the listed fields. */
  method NormalizeProfile(lib: Library, model: Value, provider: string) returns (r: Result<map<Key, Value>, Fault>)
    ensures r == SignedProfile(lib, model, provider)
  {
    hide Strip, Clean, FiniteNumber, IdText, CachePrice, FIELDS, AtStage, ProfileOf, ShownText, NumberKey, FlagKey,
      TextKey;
    if !model.Record? { return Err(ProfileInvalid); }
    var m := model.fields;
    var modelId := Strip(lib, IdText(lib, Get(m, ModelId)));
    var normalized := Clean(lib, provider);
    var inputPrice := FiniteNumber(lib, Get(m, InputPrice));
    var outputPrice := FiniteNumber(lib, Get(m, OutputPrice));
    if modelId == "" || normalized == "" || inputPrice.None? || outputPrice.None?
       || inputPrice.value < 0.0 || outputPrice.value < 0.0 {
      return Err(ProfileIncomplete);
    }
    var profile: map<Key, Value> := map[
      ModelId := Text(modelId), Provider := Text(normalized),
      InputPrice := Number(Finite(inputPrice.value)), OutputPrice := Number(Finite(outputPrice.value))];
    var readPrice := CachePrice(lib, m, CacheRead);
    if readPrice.Some? { profile := profile[CacheRead := Number(readPrice.value)]; }
    var writePrice := CachePrice(lib, m, CacheWrite);
    if writePrice.Some? { profile := profile[CacheWrite := Number(writePrice.value)]; }
    Started(lib, m, provider, profile);
    for i := 0 to |FIELDS|
      invariant forall j | 0 <= j < i :: Usable(lib, m, FIELDS[j])
      invariant AtStage(lib, m, provider, profile, i)
    {
      var field := FIELDS[i];
      var value := Get(m, field);
      ghost var before := profile;
      FieldsAreListed(field);
      if NumberKey(field) {
        if value != Null {
          var r := FiniteNumber(lib, value);
          if r.None? { return Err(ProfileInvalid); }
          profile := profile[field := Number(Finite(r.value))];
        }
      } else if FlagKey(field) {
        if value != Null {
          if !value.Flag? { return Err(ProfileInvalid); }
          profile := profile[field := value];
        }
      } else if value != Null {
        var text := Strip(lib, ShownText(lib, value));
        if text != "" { profile := profile[field := Text(text)]; }
      }
      FieldAdvances(lib, m, provider, before, profile, i);
    }
    Ended(lib, m, provider, profile);
    return Ok(profile);
  }

  ghost predicate Written(lib: Library, m: map<Key, Value>, field: Key, before: map<Key, Value>, after: map<Key,
                          Value>)
  {
    var value := Get(m, field);
    if NumberKey(field) then
      if value == Null then after == before
      else FiniteNumber(lib, value).Some?
           && after == before[field := Number(Finite(FiniteNumber(lib, value).value))]
    else if FlagKey(field) then
      if value == Null then after == before else value.Flag? && after == before[field := value]
    else
      if value == Null || Strip(lib, ShownText(lib, value)) == "" then after == before
      else after == before[field := Text(Strip(lib, ShownText(lib, value)))]
  }

  lemma FieldAdvances(
    lib: Library, m: map<Key, Value>, provider: string, before: map<Key, Value>, after: map<Key, Value>, i: nat)
    requires i < |FIELDS| && Written(lib, m, FIELDS[i], before, after)
    requires AtStage(lib, m, provider, before, i)
    ensures AtStage(lib, m, provider, after, i + 1)
  {
    hide Strip, Clean, CachePrice, IdText, FIELDS;
    var field := FIELDS[i];
    FieldsAreListed(field);
    var next := i + 1;
    forall k ensures Holds(after, k, Stage(lib, m, provider, k, next)) {
      assert FIELDS[..next] == FIELDS[..i] + [field];
      assert Holds(before, k, Stage(lib, m, provider, k, i));
      if k == field { assert Holds(after, k, Entry(lib, m, provider, k)); }
    }
  }

  lemma Started(lib: Library, m: map<Key, Value>, provider: string, profile: map<Key, Value>)
    requires Complete(lib, m, provider)
    requires var first := map[
               ModelId := Text(Strip(lib, IdText(lib, Get(m, ModelId)))), Provider := Text(Clean(lib, provider)),
               InputPrice := Number(Finite(FiniteNumber(lib, Get(m, InputPrice)).value)),
               OutputPrice := Number(Finite(FiniteNumber(lib, Get(m, OutputPrice)).value))];
             var read := CachePrice(lib, m, CacheRead);
             var second := if read.Some? then first[CacheRead := Number(read.value)] else first;
             var write := CachePrice(lib, m, CacheWrite);
             profile == if write.Some? then second[CacheWrite := Number(write.value)] else second
    ensures AtStage(lib, m, provider, profile, 0)
  {
    hide Strip, Clean, FiniteNumber, IdText, CachePrice, FIELDS;
    forall k ensures Holds(profile, k, Stage(lib, m, provider, k, 0)) {
      assert k !in FIELDS[..0];
    }
  }

  lemma Ended(lib: Library, m: map<Key, Value>, provider: string, profile: map<Key, Value>)
    requires AtStage(lib, m, provider, profile, |FIELDS|)
    ensures profile == ProfileOf(lib, m, provider)
  {
    hide Strip, Clean, FiniteNumber, IdText, CachePrice, ProfileOf, FIELDS;
    var p := ProfileOf(lib, m, provider);
    forall k ensures (k in profile <==> k in p) && (k in p ==> p[k] == profile[k]) {
      ProfileHolds(lib, m, provider, k);
      FieldsAreListed(k);
      assert FIELDS[..|FIELDS|] == FIELDS;
      assert Holds(profile, k, Stage(lib, m, provider, k, |FIELDS|));
    }
  }

  // ---------------------------------------------------------------- normalising a normalised profile again

  /** Every cache price that the normaliser falls back to is finite. */
  predicate CachePricesFinite(lib: Library, model: map<Key, Value>) {
    forall k | k in {CacheRead, CacheWrite} ::
      Get(model, k) == Null ==> CachePrice(lib, model, k) != Some(PlusInfinity)
  }

  lemma TextIsItsIdentity(lib: Library, s: string)
    ensures IdText(lib, Text(s)) == s
  {
  }

  /** A profile keeps neither the alias keys nor the nested tables that a cache price may come from. */
  lemma ProfileHasNoFallback(lib: Library, model: map<Key, Value>, provider: string, k: Key)
    requires k.CacheRead? || k.CacheWrite?
    ensures var p := ProfileOf(lib, model, provider);
            Get(p, k) == Null ==> CachePrice(lib, p, k) == None
  {
    hide ProfileOf, Strip, Clean, IdText, FiniteNumber, CacheEntry, ShownText;
    ProfileHolds(lib, model, provider, if k.CacheRead? then CacheReadAlias else CacheWriteAlias);
    ProfileHolds(lib, model, provider, ModelCost);
    ProfileHolds(lib, model, provider, Pricing);
  }

  lemma CacheEntryIsStable(lib: Library, model: map<Key, Value>, provider: string, k: Key)
    requires (k.CacheRead? || k.CacheWrite?) && Usable(lib, model, k)
    ensures var p := ProfileOf(lib, model, provider);
            var finite := Get(model, k) == Null ==> CachePrice(lib, model, k) != Some(PlusInfinity);
            && (Usable(lib, p, k) <==> finite)
            && (finite ==> Entry(lib, p, Clean(lib, provider), k) == Entry(lib, model, provider, k))
  {
    hide ProfileOf, Strip, Clean, IdText, CachePrice;
    ProfileHolds(lib, model, provider, k);
    ProfileHasNoFallback(lib, model, provider, k);
  }

  /** Entry by entry, the second normalisation reads back what the first one wrote. */
  lemma EntryIsStable(lib: Library, model: map<Key, Value>, provider: string, k: Key)
    requires lib.Sound() && (k in FIELDS ==> Usable(lib, model, k)) && !k.CacheRead? && !k.CacheWrite?
    ensures var p := ProfileOf(lib, model, provider);
            && (k in FIELDS ==> Usable(lib, p, k))
            && Entry(lib, p, Clean(lib, provider), k) == Entry(lib, model, provider, k)
  {
    hide Strip, Clean, ProfileOf, IdText, FIELDS;
    var p := ProfileOf(lib, model, provider);
    ProfileHolds(lib, model, provider, k);
    FieldsAreListed(k);
    var v := Get(model, k);
    if k.ModelId? {
      StripTrims(lib, IdText(lib, v));
      TextIsItsIdentity(lib, p[k].text);
    } else if k.Provider? {
      CleanIsIdempotent(lib, provider);
    } else if TextKey(k) && v != Null {
      StripTrims(lib, ShownText(lib, v));
    }
  }

  /** Normalising again changes nothing when the cache prices are finite, and is refused otherwise. */
  lemma SecondNormalization(lib: Library, model: Value, provider: string, p: map<Key, Value>)
    requires lib.Sound() && SignedProfile(lib, model, provider) == Ok(p)
    ensures SignedProfile(lib, Record(p), Clean(lib, provider))
              == if CachePricesFinite(lib, model.fields) then Ok(p) else Err(ProfileInvalid)
  {
    hide Strip, Clean, ProfileOf, IdText, FIELDS, Entry, Usable, CachePrice;
    var m := model.fields;
    forall k ensures k in FIELDS && !k.CacheRead? && !k.CacheWrite? ==> Usable(lib, p, k)
             ensures !k.CacheRead? && !k.CacheWrite? ==>
                       Entry(lib, p, Clean(lib, provider), k) == Entry(lib, m, provider, k)
             ensures k.CacheRead? || k.CacheWrite? ==>
                       var finite := Get(m, k) == Null ==> CachePrice(lib, m, k) != Some(PlusInfinity);
                       && (Usable(lib, p, k) <==> finite)
                       && (finite ==> Entry(lib, p, Clean(lib, provider), k) == Entry(lib, m, provider, k))
    {
      FieldsAreListed(k);
      if k.CacheRead? || k.CacheWrite? {
        CacheEntryIsStable(lib, m, provider, k);
      } else {
        EntryIsStable(lib, m, provider, k);
      }
    }
    BaseIsComplete(lib, m, provider);
    FieldsAreListed(CacheRead);
    FieldsAreListed(CacheWrite);
    if CachePricesFinite(lib, m) { SameProfile(lib, m, provider); }
  }

  lemma BaseIsComplete(lib: Library, m: map<Key, Value>, provider: string)
    requires lib.Sound() && Complete(lib, m, provider)
    ensures Complete(lib, ProfileOf(lib, m, provider), Clean(lib, provider))
  {
    hide Strip, Clean, ProfileOf, IdText;
    var p := ProfileOf(lib, m, provider);
    ProfileHolds(lib, m, provider, ModelId);
    ProfileHolds(lib, m, provider, InputPrice);
    ProfileHolds(lib, m, provider, OutputPrice);
    CleanIsIdempotent(lib, provider);
    StripTrims(lib, IdText(lib, Get(m, ModelId)));
    TextIsItsIdentity(lib, p[ModelId].text);
  }

  lemma SameProfile(lib: Library, m: map<Key, Value>, provider: string)
    requires var p := ProfileOf(lib, m, provider);
             forall k :: Entry(lib, p, Clean(lib, provider), k) == Entry(lib, m, provider, k)
    ensures var p := ProfileOf(lib, m, provider);
            ProfileOf(lib, p, Clean(lib, provider)) == p
  {
    hide ProfileOf, Entry, Clean;
    var p := ProfileOf(lib, m, provider);
    var q := ProfileOf(lib, p, Clean(lib, provider));
    forall k ensures (k in q <==> k in p) && (k in p ==> p[k] == q[k]) {
      ProfileHolds(lib, m, provider, k);
      ProfileHolds(lib, p, Clean(lib, provider), k);
    }
  }

  // ---------------------------------------------------------------- issuing and verifying

  const MAX_TOKEN: nat := 8192

  datatype Execution = Execution(
    runId: string, scopeId: string, reservationId: string, maxOutputTokens: int, callLimitUsd: real)

  datatype Request = Request(
    userId: string,
    routeId: string,
    routeName: string,
    modelId: string,
    provider: string,
    model: Value,
    weight: Value,
    callId: string,
    execution: Option<Execution>)

  const LEGACY_KEYS: set<Key> :=
    {Version, UserId, RouteId, RouteName, ModelId, Provider, ModelProfile, RequestWeight, RoutingCallId}

  const WORKFLOW_KEYS: set<Key> :=
    LEGACY_KEYS + {WorkflowRunId, BudgetScopeId, ReservationId, MaxOutputTokens, CallLimitUsd}

  predicate NumericKey(k: Key) {
    k.Version? || k.RequestWeight? || k.ModelProfile? || k.MaxOutputTokens? || k.CallLimitUsd?
  }

  function LegacyDraft(lib: Library, q: Request, profile: map<Key, Value>, weight: real): map<Key, Value> {
    map[
      Version := Integer(if q.execution.Some? then 2 else 1),
      UserId := Text(Strip(lib, q.userId)),
      RouteId := Text(Strip(lib, q.routeId)),
      RouteName := Text(Strip(lib, q.routeName)),
      ModelId := Text(Strip(lib, q.modelId)),
      Provider := Text(Clean(lib, q.provider)),
      ModelProfile := Record(profile),
      RequestWeight := Number(Finite(weight)),
      RoutingCallId := Text(Strip(lib, q.callId))]
  }

  /** The claim before the check for missing values. */
  function Draft(lib: Library, q: Request, profile: map<Key, Value>, weight: real): map<Key, Value> {
    var claim := LegacyDraft(lib, q, profile, weight);
    if q.execution.None? then claim
    else
      var e := q.execution.value;
      claim[WorkflowRunId := Text(Strip(lib, e.runId))]
           [BudgetScopeId := Text(Strip(lib, e.scopeId))]
           [ReservationId := Text(Strip(lib, e.reservationId))]
           [MaxOutputTokens := Integer(e.maxOutputTokens)]
           [CallLimitUsd := Number(Finite(e.callLimitUsd))]
  }

  predicate Filled(claim: map<Key, Value>) {
    forall k | k in claim.Keys :: claim[k] != Text("")
  }

  /** The claim that is signed, or the reason why none is. */
  function Claim(lib: Library, q: Request): Result<map<Key, Value>, Fault> {
    var profile := SignedProfile(lib, q.model, Clean(lib, q.provider));
    if profile.Err? then Err(profile.error)
    else if Get(profile.value, ModelId) != Text(Strip(lib, q.modelId)) then Err(IdentityMismatch)
    else
      var weight := PositiveNumber(lib, q.weight);
      if weight.None? then Err(ClaimIncomplete)
      else
        var claim := Draft(lib, q, profile.value, weight.value);
        if Filled(claim) then Ok(claim) else Err(ClaimIncomplete)
  }

  function Token(lib: Library, claim: map<Key, Value>): string {
    var payload := lib.render(Record(claim));
    Encode(payload) + "." + Encode(lib.sign(payload))
  }

  function Issue(lib: Library, q: Request): Result<string, Fault> {
    var claim := Claim(lib, q);
    if claim.Err? then Err(claim.error) else Ok(Token(lib, claim.value))
  }

  function FirstDot(s: string): (n: nat)
    ensures n <= |s| && (n < |s| ==> s[n] == '.') && forall i | 0 <= i < n :: s[i] != '.'
  {
    if s == "" || s[0] == '.' then 0 else 1 + FirstDot(s[1..])
  }

  /** Numeric equality of decoded values: a whole number equals the float of the same amount. */
  predicate SameValue(a: Value, b: Value) {
    || a == b
    || (a.Integer? && b == Number(Finite(a.whole as real)))
    || (b.Integer? && a == Number(Finite(b.whole as real)))
  }

  predicate SameFields(a: map<Key, Value>, b: map<Key, Value>) {
    a.Keys == b.Keys && forall k | k in a.Keys :: SameValue(a[k], b[k])
  }

  /** The signed bytes of a token, once its signature has been checked. */
  function SignedBytes(lib: Library, token: string): Option<seq<Byte>> {
    var text := Strip(lib, token);
    var n := FirstDot(text);
    if text == "" || |token| > MAX_TOKEN || n == |text| then None
    else
      var payload, signature := Decode(text[..n]), Decode(text[n + 1..]);
      if payload.None? || signature.None? || lib.sign(payload.value) != signature.value then None else payload
  }

  predicate WorkflowVersion(claim: map<Key, Value>) {
    SameValue(Get(claim, Version), Integer(2))
  }

  /** The checks on a decoded claim that do not change it. */
  predicate WellFormed(lib: Library, claim: map<Key, Value>) {
    && claim.Keys == (if WorkflowVersion(claim) then WORKFLOW_KEYS else LEGACY_KEYS)
    && (WorkflowVersion(claim) || SameValue(claim[Version], Integer(1)) || claim[Version] == Flag(true))
    && (forall k | k in claim.Keys && !NumericKey(k) :: claim[k].Text? && Strip(lib, claim[k].text) != "")
  }

  /** The claim a token carries, normalised, or a refusal. */
  function Verify(lib: Library, token: string): Result<map<Key, Value>, Fault> {
    var payload := SignedBytes(lib, token);
    if payload.None? then Err(InvalidToken)
    else
      var decoded := lib.parse(payload.value);
      if decoded.None? || !decoded.value.Record? || !WellFormed(lib, decoded.value.fields) then Err(InvalidToken)
      else Checked(lib, decoded.value.fields)
  }

  function Checked(lib: Library, claim: map<Key, Value>): Result<map<Key, Value>, Fault>
    requires WellFormed(lib, claim)
  {
    var weight := PositiveNumber(lib, claim[RequestWeight]);
    var provider := Lower(lib, claim[Provider].text);
    var profile := SignedProfile(lib, claim[ModelProfile], provider);
    if weight.None? || profile.Err? || !SameFields(profile.value, claim[ModelProfile].fields)
       || Get(profile.value, ModelId) != claim[ModelId] then Err(InvalidToken)
    else
      var normal := claim[RequestWeight := Number(Finite(weight.value))][Provider := Text(provider)]
                         [ModelProfile := Record(profile.value)];
      if !WorkflowVersion(claim) then Ok(normal)
      else
        var limit := PositiveNumber(lib, claim[CallLimitUsd]);
        if !claim[MaxOutputTokens].Integer? || claim[MaxOutputTokens].whole <= 0 || limit.None? then Err(InvalidToken)
        else Ok(normal[CallLimitUsd := Number(Finite(limit.value))])
  }

  // ---------------------------------------------------------------- the signed text survives

  lemma {:induction false} FirstDotAfterLetters(a: string, b: string)
    requires forall i | 0 <= i < |a| :: a[i] != '.'
    ensures FirstDot(a + "." + b) == |a|
  {
    var s := a + "." + b;
    assert s[|a|] == '.';
    assert forall i | 0 <= i < |a| :: s[i] == a[i];
  }

  /** Cutting, decoding and checking the signature of an issued token gives back the rendered claim. */
  lemma SignedBytesOfToken(lib: Library, claim: map<Key, Value>)
    requires lib.Sound()
    ensures SignedBytes(lib, Token(lib, claim))
              == if |Token(lib, claim)| <= MAX_TOKEN then Some(lib.render(Record(claim))) else None
  {
    hide Encode, Decode, Sextet, Strip, FirstDot;
    var payload := lib.render(Record(claim));
    var a, b := Encode(payload), Encode(lib.sign(payload));
    var token := Token(lib, claim);
    EncodeUsesLetters(payload);
    EncodeUsesLetters(lib.sign(payload));
    assert token[0] == if a == "" then '.' else a[0];
    assert token[|token| - 1] == if b == "" then '.' else b[|b| - 1];
    TrimmedIsStripped(lib, token);
    FirstDotAfterLetters(a, b);
    assert token[..|a|] == a && token[|a| + 1..] == b;
    DecodeUndoesEncode(payload);
    DecodeUndoesEncode(lib.sign(payload));
  }

  // ---------------------------------------------------------------- the round trip

  predicate Runnable(execution: Option<Execution>) {
    execution.Some? ==> execution.value.maxOutputTokens > 0 && execution.value.callLimitUsd > 0.0
  }

  lemma LegacyHolds(lib: Library, q: Request, profile: map<Key, Value>, weight: real)
    ensures var claim := LegacyDraft(lib, q, profile, weight);
            && claim.Keys == LEGACY_KEYS && {Version, ModelId, Provider, ModelProfile, RequestWeight} <= claim.Keys
            && claim[Version] == Integer(if q.execution.Some? then 2 else 1)
            && claim[ModelId] == Text(Strip(lib, q.modelId)) && claim[Provider] == Text(Clean(lib, q.provider))
            && claim[ModelProfile] == Record(profile) && claim[RequestWeight] == Number(Finite(weight))
  {
    hide Strip, Clean;
  }

  lemma DraftKeys(lib: Library, q: Request, profile: map<Key, Value>, weight: real)
    ensures Draft(lib, q, profile, weight).Keys == if q.execution.Some? then WORKFLOW_KEYS else LEGACY_KEYS
  {
    hide Strip, Clean, LegacyDraft, LEGACY_KEYS;
    LegacyHolds(lib, q, profile, weight);
  }

  lemma DraftHolds(lib: Library, q: Request, profile: map<Key, Value>, weight: real)
    ensures var claim := Draft(lib, q, profile, weight);
            && Version in claim && claim[Version] == Integer(if q.execution.Some? then 2 else 1)
            && ModelId in claim && claim[ModelId] == Text(Strip(lib, q.modelId))
            && Provider in claim && claim[Provider] == Text(Clean(lib, q.provider))
            && ModelProfile in claim && claim[ModelProfile] == Record(profile)
            && RequestWeight in claim && claim[RequestWeight] == Number(Finite(weight))
            && (q.execution.Some? ==>
                  && MaxOutputTokens in claim && claim[MaxOutputTokens] == Integer(q.execution.value.maxOutputTokens)
                  && CallLimitUsd in claim && claim[CallLimitUsd] == Number(Finite(q.execution.value.callLimitUsd)))
  {
    hide Strip, Clean, LegacyDraft, LEGACY_KEYS;
    LegacyHolds(lib, q, profile, weight);
    assert {Version, ModelId, Provider, ModelProfile, RequestWeight} <= LegacyDraft(lib, q, profile, weight).Keys;
  }

  lemma LegacyText(lib: Library, q: Request, profile: map<Key, Value>, weight: real, k: Key)
    requires k in LegacyDraft(lib, q, profile, weight) && !NumericKey(k)
    ensures LegacyDraft(lib, q, profile, weight)[k]
              == Text(if k.Provider? then Clean(lib, q.provider) else Strip(lib, SourceText(q, k)))
  {
    hide Strip, Clean;
  }

  /** Every textual value of a draft is already stripped. */
  lemma DraftTextIsStripped(lib: Library, q: Request, profile: map<Key, Value>, weight: real, k: Key)
    requires lib.Sound() && k in Draft(lib, q, profile, weight) && !NumericKey(k)
    ensures var v := Draft(lib, q, profile, weight)[k];
            && v == Text(if k.Provider? then Clean(lib, q.provider) else Strip(lib, SourceText(q, k)))
            && Strip(lib, v.text) == v.text
  {
    hide Strip, Clean, LegacyDraft;
    CleanIsIdempotent(lib, q.provider);
    StripTrims(lib, SourceText(q, k));
    if k in LegacyDraft(lib, q, profile, weight) { LegacyText(lib, q, profile, weight, k); }
  }

  function SourceText(q: Request, k: Key): string {
    if k.UserId? then q.userId
    else if k.RouteId? then q.routeId
    else if k.RouteName? then q.routeName
    else if k.ModelId? then q.modelId
    else if k.RoutingCallId? then q.callId
    else if q.execution.None? then ""
    else if k.WorkflowRunId? then q.execution.value.runId
    else if k.BudgetScopeId? then q.execution.value.scopeId
    else q.execution.value.reservationId
  }

  lemma IssuedClaimIsWellFormed(lib: Library, q: Request, claim: map<Key, Value>)
    requires lib.Sound() && Claim(lib, q) == Ok(claim)
    ensures WellFormed(lib, claim)
    ensures WorkflowVersion(claim) <==> q.execution.Some?
  {
    hide Strip, Clean, SignedProfile, PositiveNumber, Draft, NumericKey, LEGACY_KEYS, WORKFLOW_KEYS;
    var profile := SignedProfile(lib, q.model, Clean(lib, q.provider)).value;
    var weight := PositiveNumber(lib, q.weight).value;
    DraftHolds(lib, q, profile, weight);
    DraftKeys(lib, q, profile, weight);
    forall k | k in claim.Keys && !NumericKey(k) ensures claim[k].Text? && Strip(lib, claim[k].text) != "" {
      DraftTextIsStripped(lib, q, profile, weight, k);
    }
  }

  lemma CheckedReturnsTheClaim(lib: Library, q: Request, claim: map<Key, Value>)
    requires lib.Sound() && Claim(lib, q) == Ok(claim) && WellFormed(lib, claim)
    requires WorkflowVersion(claim) <==> q.execution.Some?
    ensures Checked(lib, claim)
              == if CachePricesFinite(lib, q.model.fields) && Runnable(q.execution) then Ok(claim)
                 else Err(InvalidToken)
  {
    hide Strip, Clean, SignedProfile, WellFormed, CachePricesFinite, WorkflowVersion, Draft, Filled, LEGACY_KEYS,
      WORKFLOW_KEYS;
    var provider := Clean(lib, q.provider);
    var profile, weight := SignedProfile(lib, q.model, provider).value, PositiveNumber(lib, q.weight).value;
    DraftHolds(lib, q, profile, weight);
    DraftKeys(lib, q, profile, weight);
    CleanIsIdempotent(lib, q.provider);
    SecondNormalization(lib, q.model, provider, profile);
    assert PositiveNumber(lib, claim[RequestWeight]) == Some(weight);
    assert claim[RequestWeight := Number(Finite(weight))][Provider := Text(provider)][ModelProfile := Record(profile)]
        == claim;
    if q.execution.Some? && q.execution.value.callLimitUsd > 0.0 {
      var limit := q.execution.value.callLimitUsd;
      assert PositiveNumber(lib, claim[CallLimitUsd]) == Some(limit);
      assert claim[CallLimitUsd := Number(Finite(limit))] == claim;
    }
  }

  /** Verification returns the claim that was signed exactly when the token is not too long, its cache
      prices are finite and a workflow call has output tokens and a positive limit; otherwise it refuses. */
  lemma VerifyReturnsTheSignedClaim(lib: Library, q: Request, claim: map<Key, Value>)
    requires lib.Sound() && Claim(lib, q) == Ok(claim)
    requires lib.parse(lib.render(Record(claim))) == Some(Record(claim))
    ensures Issue(lib, q).Ok? && Verify(lib, Issue(lib, q).value)
              == if |Token(lib, claim)| <= MAX_TOKEN && CachePricesFinite(lib, q.model.fields)
                    && Runnable(q.execution) then Ok(claim) else Err(InvalidToken)
  {
    hide Token, Claim, Checked, WellFormed, SignedBytes, CachePricesFinite;
    SignedBytesOfToken(lib, claim);
    IssuedClaimIsWellFormed(lib, q, claim);
    CheckedReturnsTheClaim(lib, q, claim);
  }

  // ---------------------------------------------------------------- which tokens are accepted

  /** A claim that verification accepts, whoever signed it. */
  ghost predicate Acceptable(lib: Library, c: map<Key, Value>) {
    && (c.Keys == LEGACY_KEYS || c.Keys == WORKFLOW_KEYS)
    && (c.Keys == LEGACY_KEYS ==> c[Version] in {Integer(1), Number(Finite(1.0)), Flag(true)})
    && (c.Keys == WORKFLOW_KEYS ==> c[Version] in {Integer(2), Number(Finite(2.0))})
    && (forall k | k in c.Keys && k !in {Version, RequestWeight, ModelProfile, MaxOutputTokens, CallLimitUsd} ::
          c[k].Text? && Strip(lib, c[k].text) != "")
    && (RequestWeight in c && Provider in c && ModelProfile in c && ModelId in c)
    && PositiveNumber(lib, c[RequestWeight]).Some?
    && (var profile := SignedProfile(lib, c[ModelProfile], Lower(lib, c[Provider].text));
        && profile.Ok? && SameFields(profile.value, c[ModelProfile].fields)
        && Get(profile.value, ModelId) == c[ModelId])
    && (c.Keys == WORKFLOW_KEYS && MaxOutputTokens in c && CallLimitUsd in c ==>
          && c[MaxOutputTokens].Integer? && c[MaxOutputTokens].whole > 0
          && PositiveNumber(lib, c[CallLimitUsd]).Some?)
  }

  lemma KeySetsDiffer()
    ensures {Version, RequestWeight, Provider, ModelProfile, ModelId} <= LEGACY_KEYS <= WORKFLOW_KEYS
    ensures MaxOutputTokens in WORKFLOW_KEYS && CallLimitUsd in WORKFLOW_KEYS
    ensures MaxOutputTokens !in LEGACY_KEYS && CallLimitUsd !in LEGACY_KEYS
  {
  }

  lemma AcceptableIsChecked(lib: Library, c: map<Key, Value>)
    ensures Acceptable(lib, c) <==> WellFormed(lib, c) && Checked(lib, c).Ok?
  {
    hide Strip, SignedProfile, PositiveNumber, SameFields, LEGACY_KEYS, WORKFLOW_KEYS, Lower;
    KeySetsDiffer();
  }

  /** A token is accepted exactly when it is short enough, what stands before its first full stop decodes to bytes
      that what stands behind it is the signature of, and those bytes say an acceptable claim. */
  lemma TokenIsAcceptedIff(lib: Library, token: string, payload: string, signature: string)
    requires Strip(lib, token) == payload + "." + signature && forall i | 0 <= i < |payload| :: payload[i] != '.'
    ensures Verify(lib, token).Ok? <==>
              && |token| <= 8192 && Decode(payload).Some?
              && Decode(signature) == Some(lib.sign(Decode(payload).value))
              && (var said := lib.parse(Decode(payload).value);
                  said.Some? && said.value.Record? && Acceptable(lib, said.value.fields))
    ensures Verify(lib, token).Err? ==> Verify(lib, token).error == InvalidToken
  {
    hide Strip, Decode, Checked, WellFormed, Acceptable;
    FirstDotAfterLetters(payload, signature);
    var text := payload + "." + signature;
    assert text[..|payload|] == payload && text[|payload| + 1..] == signature;
    if Decode(payload).Some? {
      var said := lib.parse(Decode(payload).value);
      if said.Some? && said.value.Record? { AcceptableIsChecked(lib, said.value.fields); }
      CheckedFault(lib, token);
    }
  }

  lemma CheckedFault(lib: Library, token: string)
    ensures Verify(lib, token).Err? ==> Verify(lib, token).error == InvalidToken
  {
    hide SignedBytes, WellFormed, SignedProfile, PositiveNumber, SameFields, WorkflowVersion, Lower;
  }

  /** Without a full stop a token is refused. */
  lemma UndividedTokenIsRefused(lib: Library, token: string)
    requires forall i | 0 <= i < |Strip(lib, token)| :: Strip(lib, token)[i] != '.'
    ensures Verify(lib, token) == Err(InvalidToken)
  {
    hide Strip, Decode, Checked, WellFormed;
  }

  /** What an accepted token is taken to say is what was signed, but for the notation of its numbers, the case of
      its provider and the normal form of its profile. */
  lemma AcceptedClaimIsAsSigned(lib: Library, token: string) returns (bytes: seq<Byte>, said: map<Key, Value>)
    requires Verify(lib, token).Ok?
    ensures SignedBytes(lib, token) == Some(bytes) && lib.parse(bytes) == Some(Record(said)) && Acceptable(lib, said)
    ensures AsSigned(lib, said, Verify(lib, token).value)
  {
    hide SignedBytes, Strip, Checked, WellFormed, Acceptable, AsSigned;
    bytes := SignedBytes(lib, token).value;
    said := lib.parse(bytes).value.fields;
    AcceptableIsChecked(lib, said);
    CheckedIsAsSigned(lib, said);
  }

  ghost predicate AsSigned(lib: Library, said: map<Key, Value>, claim: map<Key, Value>) {
    && claim.Keys == said.Keys && {RequestWeight, Provider, ModelProfile} <= said.Keys && said[Provider].Text?
    && (forall k | k in said.Keys && k !in {RequestWeight, Provider, ModelProfile, CallLimitUsd} :: claim[k] == said[k])
    && PositiveNumber(lib, said[RequestWeight]).Some?
    && claim[RequestWeight] == Number(Finite(PositiveNumber(lib, said[RequestWeight]).value))
    && claim[Provider] == Text(Lower(lib, said[Provider].text))
    && (var profile := SignedProfile(lib, said[ModelProfile], Lower(lib, said[Provider].text));
        profile.Ok? && claim[ModelProfile] == Record(profile.value))
    && (CallLimitUsd in said ==>
          && PositiveNumber(lib, said[CallLimitUsd]).Some?
          && claim[CallLimitUsd] == Number(Finite(PositiveNumber(lib, said[CallLimitUsd]).value)))
  }

  lemma CheckedIsAsSigned(lib: Library, said: map<Key, Value>)
    requires WellFormed(lib, said) && Checked(lib, said).Ok?
    ensures AsSigned(lib, said, Checked(lib, said).value)
  {
    hide Strip, SignedProfile, PositiveNumber, SameFields, Lower, LEGACY_KEYS, WORKFLOW_KEYS;
    KeySetsDiffer();
    KeysArePresent(lib, said);
  }

  // ---------------------------------------------------------------- which requests get a token

  /** A token is issued exactly for a request whose model is described completely and is the one named, whose
      weight is above zero, and none of whose names is blank. */
  lemma TokenIsIssuedIff(lib: Library, q: Request)
    requires lib.Sound()
    ensures var profile := SignedProfile(lib, q.model, Clean(lib, q.provider));
            Issue(lib, q).Ok? <==>
              && profile.Ok? && Get(profile.value, ModelId) == Text(Strip(lib, q.modelId))
              && PositiveNumber(lib, q.weight).Some?
              && NamesGiven(lib, q)
  {
    hide Strip, SignedProfile, PositiveNumber, Token, NamesGiven, Filled, Draft;
    var profile, weight := SignedProfile(lib, q.model, Clean(lib, q.provider)), PositiveNumber(lib, q.weight);
    if profile.Ok? && weight.Some? { FilledIff(lib, q, profile.value, weight.value); }
  }

  predicate NamesGiven(lib: Library, q: Request) {
    && Strip(lib, q.userId) != "" && Strip(lib, q.routeId) != "" && Strip(lib, q.routeName) != ""
    && Strip(lib, q.modelId) != "" && Strip(lib, q.provider) != "" && Strip(lib, q.callId) != ""
    && (q.execution.Some? ==>
          && Strip(lib, q.execution.value.runId) != "" && Strip(lib, q.execution.value.scopeId) != ""
          && Strip(lib, q.execution.value.reservationId) != "")
  }

  predicate IsName(workflow: bool, k: Key) {
    || k.UserId? || k.RouteId? || k.RouteName? || k.ModelId? || k.Provider? || k.RoutingCallId?
    || (workflow && (k.WorkflowRunId? || k.BudgetScopeId? || k.ReservationId?))
  }

  lemma GivenIffNamed(lib: Library, q: Request)
    ensures NamesGiven(lib, q) <==>
              forall k | IsName(q.execution.Some?, k) :: Strip(lib, NamedText(q, k)) != ""
  {
    hide Strip;
    var w := q.execution.Some?;
    assert IsName(w, UserId) && IsName(w, RouteId) && IsName(w, RouteName) && IsName(w, ModelId) && IsName(w, Provider)
        && IsName(w, RoutingCallId);
    assert w ==> IsName(w, WorkflowRunId) && IsName(w, BudgetScopeId) && IsName(w, ReservationId);
  }

  lemma FilledIff(lib: Library, q: Request, profile: map<Key, Value>, weight: real)
    requires lib.Sound()
    ensures Filled(Draft(lib, q, profile, weight)) <==> NamesGiven(lib, q)
  {
    hide Strip, Draft, NamedText, NumericKey, IsName, NamesGiven, LEGACY_KEYS, WORKFLOW_KEYS;
    var claim := Draft(lib, q, profile, weight);
    DraftKeys(lib, q, profile, weight);
    GivenIffNamed(lib, q);
    forall k
      ensures IsName(q.execution.Some?, k) <==> k in claim.Keys && !NumericKey(k)
      ensures k in claim.Keys ==> (claim[k] == Text("") <==> !NumericKey(k) && Strip(lib, NamedText(q, k)) == "")
    {
      TextKeysAre(q.execution.Some?, k);
      if k in claim.Keys { NamedInDraft(lib, q, profile, weight, k); }
    }
  }

  lemma TextKeysAre(workflow: bool, k: Key)
    ensures IsName(workflow, k) <==> k in (if workflow then WORKFLOW_KEYS else LEGACY_KEYS) && !NumericKey(k)
  {
  }

  lemma NamedInDraft(lib: Library, q: Request, profile: map<Key, Value>, weight: real, k: Key)
    requires lib.Sound() && k in Draft(lib, q, profile, weight).Keys
    ensures Draft(lib, q, profile, weight)[k] == Text("") <==>
              !NumericKey(k) && Strip(lib, NamedText(q, k)) == ""
  {
    hide Strip, LegacyDraft, Draft, Clean, LEGACY_KEYS, WORKFLOW_KEYS;
    CleanIsBlank(lib, q.provider);
    DraftHolds(lib, q, profile, weight);
    if NumericKey(k) {
      DraftKeys(lib, q, profile, weight);
      KeySetsDiffer();
    } else {
      DraftTextIsStripped(lib, q, profile, weight, k);
    }
  }

  /** The text that a request gives for a name. */
  function NamedText(q: Request, k: Key): string {
    if k.Provider? then q.provider else SourceText(q, k)
  }

  lemma CleanIsBlank(lib: Library, s: string)
    ensures Clean(lib, s) == "" <==> Strip(lib, s) == ""
  {
    hide Strip;
  }

  /** A request whose every name is the letter x. */
  function Sample(cacheRead: Value, outputTokens: int): Request {
    Request("x", "x", "x", "x", "x",
            Record(map[ModelId := Text("x"), InputPrice := Integer(1), OutputPrice := Integer(1),
                       CacheReadAlias := cacheRead]),
            Integer(1), "x", Some(Execution("x", "x", "x", outputTokens, 1.0)))
  }

  lemma SampleProfile(lib: Library, cacheRead: Value, outputTokens: int)
    requires !lib.space('x') && lib.lower('x') == 'x'
    ensures Strip(lib, "x") == "x" && Clean(lib, "x") == "x"
    ensures var profile := SignedProfile(lib, Sample(cacheRead, outputTokens).model, "x");
            profile.Ok? && Get(profile.value, ModelId) == Text("x")
  {
    hide ProfileOf, IdText, FIELDS, CachePrice, Clean;
    var m := Sample(cacheRead, outputTokens).model.fields;
    XIsClean(lib);
    TextIsItsIdentity(lib, "x");
    forall k | k in FIELDS ensures Usable(lib, m, k) {
      FieldsAreListed(k);
    }
    ProfileHolds(lib, m, "x", ModelId);
  }

  lemma XIsClean(lib: Library)
    requires !lib.space('x') && lib.lower('x') == 'x'
    ensures Strip(lib, "x") == "x" && Clean(lib, "x") == "x"
  {
    TrimmedIsStripped(lib, "x");
    assert Lower(lib, "x") == "x";
  }

  lemma SampleIsIssued(lib: Library, cacheRead: Value, outputTokens: int)
    requires lib.Sound() && !lib.space('x') && lib.lower('x') == 'x'
    ensures Claim(lib, Sample(cacheRead, outputTokens)).Ok?
  {
    hide Draft, Strip, Clean, SignedProfile;
    var q := Sample(cacheRead, outputTokens);
    SampleProfile(lib, cacheRead, outputTokens);
    var profile := SignedProfile(lib, q.model, "x").value;
    SampleIsFilled(lib, q, profile, cacheRead, outputTokens);
  }

  lemma SampleIsFilled(lib: Library, q: Request, profile: map<Key, Value>, cacheRead: Value, outputTokens: int)
    requires lib.Sound() && Strip(lib, "x") == "x" && Clean(lib, "x") == "x" && q == Sample(cacheRead, outputTokens)
    ensures Filled(Draft(lib, q, profile, 1.0))
  {
    hide Draft, Strip, Clean;
    DraftHolds(lib, q, profile, 1.0);
    forall k | k in Draft(lib, q, profile, 1.0).Keys ensures Draft(lib, q, profile, 1.0)[k] != Text("") {
      if NumericKey(k) {
        DraftKeys(lib, q, profile, 1.0);
      } else {
        DraftTextIsStripped(lib, q, profile, 1.0, k);
      }
    }
  }

  lemma InfinitePrice(lib: Library)
    ensures !CachePricesFinite(lib, Sample(Number(PlusInfinity), 1).model.fields)
  {
    var m := Sample(Number(PlusInfinity), 1).model.fields;
    assert Get(m, CacheRead) == Null && CachePrice(lib, m, CacheRead) == Some(PlusInfinity);
  }

  /** With any library, a request for no output tokens and one with an infinite cache price get tokens that
      never verify. */
  lemma IssuedButNeverVerified(lib: Library, q: Request)
    requires lib.Sound() && !lib.space('x') && lib.lower('x') == 'x'
    requires q == Sample(Null, 0) || q == Sample(Number(PlusInfinity), 1)
    ensures Claim(lib, q).Ok? && Issue(lib, q).Ok?
    ensures var claim := Claim(lib, q).value;
            lib.parse(lib.render(Record(claim))) == Some(Record(claim)) ==>
              Verify(lib, Issue(lib, q).value) == Err(InvalidToken)
  {
    hide Claim, Verify, CachePricesFinite;
    SampleIsIssued(lib, Null, 0);
    SampleIsIssued(lib, Number(PlusInfinity), 1);
    InfinitePrice(lib);
    var claim := Claim(lib, q).value;
    if lib.parse(lib.render(Record(claim))) == Some(Record(claim)) {
      VerifyReturnsTheSignedClaim(lib, q, claim);
    }
  }

  lemma CleaningTwice(lib: Library, model: Value, provider: string)
    requires lib.Sound()
    ensures SignedProfile(lib, model, Clean(lib, provider)) == SignedProfile(lib, model, provider)
  {
    hide Clean, Strip, IdText, FIELDS, Usable, CachePrice;
    CleanIsIdempotent(lib, provider);
    if model.Record? {
      assert ProfileOf(lib, model.fields, Clean(lib, provider)) == ProfileOf(lib, model.fields, provider);
    }
  }

  /** A profile that is its own normalisation never relied on an infinite fallback price. */
  lemma NormalProfilesAreFinite(lib: Library, model: Value, provider: string)
    requires SignedProfile(lib, model, provider).Ok?
    ensures model.Record?
    ensures SameFields(SignedProfile(lib, model, provider).value, model.fields) ==> CachePricesFinite(lib, model.fields)
  {
    hide Clean, Strip, IdText, FIELDS, Usable, CachePrice, ProfileOf;
    if model.Record? {
      ProfileHolds(lib, model.fields, provider, CacheRead);
      ProfileHolds(lib, model.fields, provider, CacheWrite);
    }
  }

  lemma KeysArePresent(lib: Library, claim: map<Key, Value>)
    requires WellFormed(lib, claim)
    ensures Provider in claim && claim[Provider].Text?
    ensures RequestWeight in claim && ModelProfile in claim && ModelId in claim
    ensures WorkflowVersion(claim) ==> MaxOutputTokens in claim && CallLimitUsd in claim
  {
    hide Strip, WorkflowVersion;
  }

  /** What verification returns is normal: its profile, read under its provider, normalises to itself. */
  lemma VerifiedProfileIsNormal(lib: Library, token: string)
    requires lib.Sound() && Verify(lib, token).Ok?
    ensures var claim := Verify(lib, token).value;
            && Get(claim, Provider).Text? && Get(claim, ModelProfile).Record?
            && SignedProfile(lib, claim[ModelProfile], claim[Provider].text) == Ok(claim[ModelProfile].fields)
            && Get(claim[ModelProfile].fields, ModelId) == Get(claim, ModelId)
  {
    hide SignedBytes, WellFormed, SignedProfile, Lower, Clean, SameFields, WorkflowVersion, CachePricesFinite,
      PositiveNumber;
    var raw := lib.parse(SignedBytes(lib, token).value).value.fields;
    KeysArePresent(lib, raw);
    var provider := Lower(lib, raw[Provider].text);
    var p := SignedProfile(lib, raw[ModelProfile], provider).value;
    NormalProfilesAreFinite(lib, raw[ModelProfile], provider);
    SecondNormalization(lib, raw[ModelProfile], provider, p);
    CleaningTwice(lib, Record(p), provider);
  }
}
