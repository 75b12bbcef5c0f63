/**
 * `AuthConfig`: the defaults, the caller's overrides, and the effective configuration that the
 * constructor builds by `objectAssign({}, AuthConfigDefaults, config)` and then adjusts in place
 * (the header prefix and the two store-reading getters).
 */
module Configuration {
  import opened Wrappers
  import opened Storage
  import opened Numbers
  import Objects

  // AuthConfigConsts
  const DefaultTokenName := "access_token"
  const DefaultExpiryName := "expires_in"
  const DefaultHeaderName := "Authorization"
  const HeaderPrefixBearer := "Bearer "

  /**
   * A `tokenGetter` or `expiryDateGetter`, as data: either the closure
   * `() => localStorage.getItem(key)` (wrapped in `Number(...)` for the expiry date) or a
   * caller-supplied function, represented by the value it yields.
   */
  datatype Getter<T> = StoreLookup(key: string) | Custom(value: T)

  type TokenGetter = Getter<Option<string>>
  type ExpiryDateGetter = Getter<Number>

  /** Calling a token getter against the current store. */
  function TokenOf(g: TokenGetter, store: Store): Option<string>
  {
    match g
    case StoreLookup(key) => GetItem(store, key)
    case Custom(t) => t
  }

  /** Calling an expiry-date getter against the current store. */
  function ExpiryDateOf(g: ExpiryDateGetter, store: Store): Number
  {
    match g
    case StoreLookup(key) => NumberOf(GetItem(store, key))
    case Custom(d) => d
  }

  /** One element of `globalHeaders`: the single-key object `{ name: value }`. */
  datatype HeaderEntry = HeaderEntry(name: string, value: string)

  /** `IAuthConfigOptional`: every field may be left out. */
  datatype Overrides = Overrides(
    headerName: Option<string>,
    headerPrefix: Option<string>,
    tokenName: Option<string>,
    expiryDateName: Option<string>,
    tokenGetter: Option<TokenGetter>,
    expiryDateGetter: Option<ExpiryDateGetter>,
    globalHeaders: Option<seq<HeaderEntry>>,
    noTokenScheme: Option<bool>)

  /** The empty object `{}`. */
  const NoOverrides := Overrides(None, None, None, None, None, None, None, None)

  /** `IAuthConfig`, the effective configuration. */
  datatype Config = Config(
    headerName: string,
    headerPrefix: string,
    tokenName: string,
    expiryDateName: string,
    tokenGetter: TokenGetter,
    expiryDateGetter: ExpiryDateGetter,
    globalHeaders: seq<HeaderEntry>,
    noTokenScheme: bool)

  // ---------------------------------------------------------------------------------------------
  // The specification: what the constructor computes, field by field.

  /** The header prefix after the constructor's adjustment of the merged value. */
  function NormalisedPrefix(prefix: Option<string>, noTokenScheme: bool): string {
    if prefix.Some? && |prefix.value| > 0 then prefix.value + " "
    else if noTokenScheme then ""
    else HeaderPrefixBearer
  }

  /** Empty, or ending in a space: `prefix + token` then keeps the scheme apart from the token. */
  predicate SpaceTerminated(p: string) {
    p == "" || p[|p| - 1] == ' '
  }

  /** True when a caller-supplied name asks for a synthesised store lookup (`name && !getter`). */
  predicate Synthesises<G>(name: Option<string>, getter: Option<G>) {
    name.Some? && |name.value| > 0 && getter.None?
  }

  /** The configuration `new AuthConfig(config).getConfig()` returns. */
  function Resolve(config: Option<Overrides>): Config {
    var o := config.GetOr(NoOverrides);
    Config(
      o.headerName.GetOr(DefaultHeaderName),
      NormalisedPrefix(o.headerPrefix, o.noTokenScheme.GetOr(false)),
      o.tokenName.GetOr(DefaultTokenName),
      o.expiryDateName.GetOr(DefaultExpiryName),
      if Synthesises(o.tokenName, o.tokenGetter) then StoreLookup(o.tokenName.value)
      else o.tokenGetter.GetOr(StoreLookup(DefaultTokenName)),
      if Synthesises(o.expiryDateName, o.expiryDateGetter) then StoreLookup(o.expiryDateName.value)
      else o.expiryDateGetter.GetOr(StoreLookup(DefaultExpiryName)),
      o.globalHeaders.GetOr([]),
      o.noTokenScheme.GetOr(false))
  }

  // ---------------------------------------------------------------------------------------------
  // Configurations as JavaScript objects, which is what `objectAssign` works on.

  /** The property names of `IAuthConfig`; `Name` gives each one's spelling. */
  datatype Property =
    | HeaderName | HeaderPrefix | TokenName | ExpiryDateName
    | TokenGetterProp | ExpiryDateGetterProp | GlobalHeaders | NoTokenScheme
  {
    function Name(): string {
      match this
      case HeaderName => "headerName"
      case HeaderPrefix => "headerPrefix"
      case TokenName => "tokenName"
      case ExpiryDateName => "expiryDateName"
      case TokenGetterProp => "tokenGetter"
      case ExpiryDateGetterProp => "expiryDateGetter"
      case GlobalHeaders => "globalHeaders"
      case NoTokenScheme => "noTokenScheme"
    }
  }

  /** A property value of a configuration object. */
  datatype Value =
    | Null
    | Str(s: string)
    | Flag(b: bool)
    | HeaderList(entries: seq<HeaderEntry>)
    | TokenFn(tokenGetter: TokenGetter)
    | ExpiryFn(expiryDateGetter: ExpiryDateGetter)

  type ConfigObject = Objects.Object<Property, Value>

  /** JavaScript truthiness; arrays and functions are objects, hence truthy. */
  predicate Truthy(v: Value) {
    match v
    case Null => false
    case Str(s) => |s| > 0
    case Flag(b) => b
    case _ => true
  }

  /** Reading a property: a missing one is `undefined`, which behaves as `Null` here. */
  function Field(obj: ConfigObject, key: Property): Value
  {
    if key in obj then obj[key] else Null
  }

  /** `AuthConfigDefaults`; its getters read the default keys, and its prefix is `null`. */
  function DefaultsObject(): ConfigObject {
    map[
      HeaderName := Str(DefaultHeaderName),
      HeaderPrefix := Null,
      TokenName := Str(DefaultTokenName),
      ExpiryDateName := Str(DefaultExpiryName),
      TokenGetterProp := TokenFn(StoreLookup(DefaultTokenName)),
      ExpiryDateGetterProp := ExpiryFn(StoreLookup(DefaultExpiryName)),
      GlobalHeaders := HeaderList([]),
      NoTokenScheme := Flag(false)]
  }

  /** The value the caller gave for property `key`, if any. */
  function GivenValue(o: Overrides, key: Property): Option<Value> {
    match key
    case HeaderName => if o.headerName.Some? then Some(Str(o.headerName.value)) else None
    case HeaderPrefix => if o.headerPrefix.Some? then Some(Str(o.headerPrefix.value)) else None
    case TokenName => if o.tokenName.Some? then Some(Str(o.tokenName.value)) else None
    case ExpiryDateName => if o.expiryDateName.Some? then Some(Str(o.expiryDateName.value)) else None
    case TokenGetterProp => if o.tokenGetter.Some? then Some(TokenFn(o.tokenGetter.value)) else None
    case ExpiryDateGetterProp =>
      if o.expiryDateGetter.Some? then Some(ExpiryFn(o.expiryDateGetter.value)) else None
    case GlobalHeaders => if o.globalHeaders.Some? then Some(HeaderList(o.globalHeaders.value)) else None
    case NoTokenScheme => if o.noTokenScheme.Some? then Some(Flag(o.noTokenScheme.value)) else None
  }

  /** The caller's options object: one own property per field that was given. */
  function OverridesObject(o: Overrides): (obj: ConfigObject)
  {
    var obj: ConfigObject := map[];
    var obj := Put(obj, HeaderName, GivenValue(o, HeaderName));
    var obj := Put(obj, HeaderPrefix, GivenValue(o, HeaderPrefix));
    var obj := Put(obj, TokenName, GivenValue(o, TokenName));
    var obj := Put(obj, ExpiryDateName, GivenValue(o, ExpiryDateName));
    var obj := Put(obj, TokenGetterProp, GivenValue(o, TokenGetterProp));
    var obj := Put(obj, ExpiryDateGetterProp, GivenValue(o, ExpiryDateGetterProp));
    var obj := Put(obj, GlobalHeaders, GivenValue(o, GlobalHeaders));
    Put(obj, NoTokenScheme, GivenValue(o, NoTokenScheme))
  }

  function Put(obj: ConfigObject, key: Property, v: Option<Value>): ConfigObject {
    if v.Some? then obj[key := v.value] else obj
  }

  /**
   * The shape `IAuthConfig` promises for the object `getConfig()` returns: every property
   * present, with a value of its type.
   */
  predicate WellFormed(obj: ConfigObject) {
    && HeaderName in obj && obj[HeaderName].Str?
    && HeaderPrefix in obj && obj[HeaderPrefix].Str?
    && TokenName in obj && obj[TokenName].Str?
    && ExpiryDateName in obj && obj[ExpiryDateName].Str?
    && TokenGetterProp in obj && obj[TokenGetterProp].TokenFn?
    && ExpiryDateGetterProp in obj && obj[ExpiryDateGetterProp].ExpiryFn?
    && GlobalHeaders in obj && obj[GlobalHeaders].HeaderList?
    && NoTokenScheme in obj && obj[NoTokenScheme].Flag?
  }

  /** The typed view of a well-formed configuration object. */
  function Decode(obj: ConfigObject): Config
    requires WellFormed(obj)
  {
    Config(
      obj[HeaderName].s,
      obj[HeaderPrefix].s,
      obj[TokenName].s,
      obj[ExpiryDateName].s,
      obj[TokenGetterProp].tokenGetter,
      obj[ExpiryDateGetterProp].expiryDateGetter,
      obj[GlobalHeaders].entries,
      obj[NoTokenScheme].b)
  }

  lemma GivenField(o: Overrides, key: Property)
    ensures Field(OverridesObject(o), key) == GivenValue(o, key).GetOr(Null)
  {
  }

  /** An object whose eight properties hold the fields of `cfg` is well formed and decodes to `cfg`. */
  lemma DecodeFields(obj: ConfigObject, cfg: Config)
    requires HeaderName in obj && obj[HeaderName] == Str(cfg.headerName)
    requires HeaderPrefix in obj && obj[HeaderPrefix] == Str(cfg.headerPrefix)
    requires TokenName in obj && obj[TokenName] == Str(cfg.tokenName)
    requires ExpiryDateName in obj && obj[ExpiryDateName] == Str(cfg.expiryDateName)
    requires TokenGetterProp in obj && obj[TokenGetterProp] == TokenFn(cfg.tokenGetter)
    requires ExpiryDateGetterProp in obj && obj[ExpiryDateGetterProp] == ExpiryFn(cfg.expiryDateGetter)
    requires GlobalHeaders in obj && obj[GlobalHeaders] == HeaderList(cfg.globalHeaders)
    requires NoTokenScheme in obj && obj[NoTokenScheme] == Flag(cfg.noTokenScheme)
    ensures WellFormed(obj) && Decode(obj) == cfg
  {
  }

  /** The merged object holds, for every property, the caller's value if given, else the default. */
  lemma MergedFields(o: Overrides, key: Property)
    ensures key in DefaultsObject() + OverridesObject(o)
    ensures (DefaultsObject() + OverridesObject(o))[key] == GivenValue(o, key).GetOr(DefaultsObject()[key])
  {
    GivenField(o, key);
  }

  lemma MergedAgrees(o: Overrides, m: ConfigObject)
    requires m == DefaultsObject() + OverridesObject(o)
    ensures var cfg := Resolve(Some(o));
      && HeaderName in m && m[HeaderName] == Str(cfg.headerName)
      && TokenName in m && m[TokenName] == Str(cfg.tokenName)
      && ExpiryDateName in m && m[ExpiryDateName] == Str(cfg.expiryDateName)
      && GlobalHeaders in m && m[GlobalHeaders] == HeaderList(cfg.globalHeaders)
      && NoTokenScheme in m && m[NoTokenScheme] == Flag(cfg.noTokenScheme)
      && TokenGetterProp in m
      && (!Synthesises(o.tokenName, o.tokenGetter) ==> m[TokenGetterProp] == TokenFn(cfg.tokenGetter))
      && ExpiryDateGetterProp in m
      && (!Synthesises(o.expiryDateName, o.expiryDateGetter) ==>
            m[ExpiryDateGetterProp] == ExpiryFn(cfg.expiryDateGetter))
  {
    MergedFields(o, HeaderName);
    MergedFields(o, TokenName);
    MergedFields(o, ExpiryDateName);
    MergedFields(o, GlobalHeaders);
    MergedFields(o, NoTokenScheme);
    MergedFields(o, TokenGetterProp);
    MergedFields(o, ExpiryDateGetterProp);
  }

  /** What the constructor's prefix adjustment sees in the merged object, and what it yields. */
  lemma PrefixAdjustment(o: Overrides, m: ConfigObject)
    requires m == DefaultsObject() + OverridesObject(o)
    ensures HeaderPrefix in m
    ensures Truthy(Field(m, HeaderPrefix)) ==>
              m[HeaderPrefix].Str? && m[HeaderPrefix].s + " " == Resolve(Some(o)).headerPrefix
    ensures !Truthy(Field(m, HeaderPrefix)) && Truthy(Field(m, NoTokenScheme)) ==>
              Resolve(Some(o)).headerPrefix == ""
    ensures !Truthy(Field(m, HeaderPrefix)) && !Truthy(Field(m, NoTokenScheme)) ==>
              Resolve(Some(o)).headerPrefix == HeaderPrefixBearer
  {
    MergedFields(o, HeaderPrefix);
    MergedFields(o, NoTokenScheme);
  }

  /**
   * What the constructor needs to know of the merged object `m` before its adjustments: the
   * fields it keeps already hold their effective values, and the prefix it rewrites leads to the
   * effective prefix along whichever branch it takes.
   */
  ghost predicate Merged(o: Overrides, m: ConfigObject) {
    var cfg := Resolve(Some(o));
    && HeaderName in m && m[HeaderName] == Str(cfg.headerName)
    && TokenName in m && m[TokenName] == Str(cfg.tokenName)
    && ExpiryDateName in m && m[ExpiryDateName] == Str(cfg.expiryDateName)
    && GlobalHeaders in m && m[GlobalHeaders] == HeaderList(cfg.globalHeaders)
    && NoTokenScheme in m && m[NoTokenScheme] == Flag(cfg.noTokenScheme)
    && TokenGetterProp in m
    && (!Synthesises(o.tokenName, o.tokenGetter) ==> m[TokenGetterProp] == TokenFn(cfg.tokenGetter))
    && ExpiryDateGetterProp in m
    && (!Synthesises(o.expiryDateName, o.expiryDateGetter) ==>
          m[ExpiryDateGetterProp] == ExpiryFn(cfg.expiryDateGetter))
    && HeaderPrefix in m
    && (Truthy(Field(m, HeaderPrefix)) ==>
          m[HeaderPrefix].Str? && m[HeaderPrefix].s + " " == cfg.headerPrefix)
    && (!Truthy(Field(m, HeaderPrefix)) && Truthy(Field(m, NoTokenScheme)) ==> cfg.headerPrefix == "")
    && (!Truthy(Field(m, HeaderPrefix)) && !Truthy(Field(m, NoTokenScheme)) ==>
          cfg.headerPrefix == HeaderPrefixBearer)
  }

  lemma MergedShape(o: Overrides, m: ConfigObject)
    requires m == DefaultsObject() + OverridesObject(o)
    ensures Merged(o, m)
  {
    MergedAgrees(o, m);
    PrefixAdjustment(o, m);
  }

  /** `objectAssign({}, AuthConfigDefaults, config)`: the caller's properties laid over the defaults. */
  method MergeWithDefaults(o: Overrides) returns (merged: ConfigObject)
    ensures merged == DefaultsObject() + OverridesObject(o)
    ensures Merged(o, merged)
  {
    var given := OverridesObject(o);
    var r := Objects.Assign(Some(map[]), [Some(DefaultsObject()), Some(given)]);
    Objects.AssignAllOfTwo(DefaultsObject(), given);
    merged := r.value;
    MergedShape(o, merged);
  }

  /** `AuthConfig`; its one field is the configuration object `_config`. */
  class AuthConfig {
    var config: ConfigObject

    /** The object has every property with a value of its type, and its prefix is ready to precede a token. */
    ghost predicate Valid()
      reads this
    {
      WellFormed(config) && SpaceTerminated(config[HeaderPrefix].s)
    }

    /** `new AuthConfig(config)`. */
    constructor (config: Option<Overrides>)
      ensures Valid()
      ensures GetConfig() == Resolve(config)
    {
      // A missing argument counts as an empty options object.
      var o := config.GetOr(NoOverrides);
      var merged := MergeWithDefaults(o);
      this.config := merged;
      new;
      Adjust(o);
    }

    /**
     * The constructor's adjustments of the merged object: the prefix rule, then a store lookup
     * under the caller's own non-empty `tokenName` / `expiryDateName` when the caller gave no
     * getter for it.  The conditions read the caller's options `o`, not the merged object.
     */
    method Adjust(o: Overrides)
      requires Merged(o, config)
      modifies this
      ensures Valid() && GetConfig() == Resolve(Some(o))
    {
      ghost var expected := Resolve(Some(o));
      if Truthy(Field(config, HeaderPrefix)) {
        config := config[HeaderPrefix := Str(config[HeaderPrefix].s + " ")];
      } else if Truthy(Field(config, NoTokenScheme)) {
        config := config[HeaderPrefix := Str("")];
      } else {
        config := config[HeaderPrefix := Str(HeaderPrefixBearer)];
      }
      if o.tokenName.Some? && |o.tokenName.value| > 0 && o.tokenGetter.None? {
        config := config[TokenGetterProp := TokenFn(StoreLookup(o.tokenName.value))];
      }
      if o.expiryDateName.Some? && |o.expiryDateName.value| > 0 && o.expiryDateGetter.None? {
        config := config[ExpiryDateGetterProp := ExpiryFn(StoreLookup(o.expiryDateName.value))];
      }
      DecodeFields(config, expected);
      PrefixEndsInSpace(Some(o));
    }

    /** `getConfig()`. */
    function GetConfig(): (cfg: Config)
      reads this
      requires Valid()
      ensures SpaceTerminated(cfg.headerPrefix)
    {
      Decode(config)
    }
  }

  // ---------------------------------------------------------------------------------------------
  // What the effective configuration promises.

  /** With no options at all, every field takes its default, and the prefix is `"Bearer "`. */
  lemma DefaultConfig()
    ensures Resolve(None) == Resolve(Some(NoOverrides))
    ensures Resolve(None) == Config(
              DefaultHeaderName, HeaderPrefixBearer, DefaultTokenName, DefaultExpiryName,
              StoreLookup(DefaultTokenName), StoreLookup(DefaultExpiryName), [], false)
  {
  }

  /** A field the caller gave (other than the prefix and the getters) is taken unchanged. */
  lemma GivenFieldsKept(o: Overrides)
    ensures o.headerName.Some? ==> Resolve(Some(o)).headerName == o.headerName.value
    ensures o.tokenName.Some? ==> Resolve(Some(o)).tokenName == o.tokenName.value
    ensures o.expiryDateName.Some? ==> Resolve(Some(o)).expiryDateName == o.expiryDateName.value
    ensures o.globalHeaders.Some? ==> Resolve(Some(o)).globalHeaders == o.globalHeaders.value
    ensures o.noTokenScheme.Some? ==> Resolve(Some(o)).noTokenScheme == o.noTokenScheme.value
    ensures o.headerName.None? ==> Resolve(Some(o)).headerName == DefaultHeaderName
    ensures o.tokenName.None? ==> Resolve(Some(o)).tokenName == DefaultTokenName
    ensures o.expiryDateName.None? ==> Resolve(Some(o)).expiryDateName == DefaultExpiryName
    ensures o.globalHeaders.None? ==> Resolve(Some(o)).globalHeaders == []
    ensures o.noTokenScheme.None? ==> Resolve(Some(o)).noTokenScheme == false
  {
  }

  /**
   * The header prefix: a non-empty given prefix gets one space appended (whatever
   * `noTokenScheme` says); otherwise it is empty exactly when `noTokenScheme` is set, and
   * `"Bearer "` when it is not.
   */
  lemma PrefixCases(o: Overrides)
    ensures var p := Resolve(Some(o)).headerPrefix;
      && (o.headerPrefix.Some? && |o.headerPrefix.value| > 0 ==> p == o.headerPrefix.value + " ")
      && (p == "" <==> (o.headerPrefix.None? || o.headerPrefix.value == "") && o.noTokenScheme == Some(true))
      && ((o.headerPrefix.None? || o.headerPrefix.value == "") && o.noTokenScheme != Some(true) ==>
            p == HeaderPrefixBearer)
  {
  }

  /** The effective prefix is either empty or ends in a space, so `prefix + token` separates the two. */
  lemma PrefixEndsInSpace(config: Option<Overrides>)
    ensures SpaceTerminated(Resolve(config).headerPrefix)
  {
  }

  /** The space is appended even when the given prefix already ends in one. */
  lemma PrefixSpaceDoubled()
    ensures Resolve(Some(NoOverrides.(headerPrefix := Some("Bar ")))).headerPrefix == "Bar  "
  {
  }

  /**
   * Reading the token: a supplied getter is used as is; otherwise the store is read under the
   * given token name when it is non-empty, and under `"access_token"` when it is absent or empty.
   */
  lemma TokenGetterReads(o: Overrides, store: Store)
    ensures o.tokenGetter.Some? ==>
              TokenOf(Resolve(Some(o)).tokenGetter, store) == TokenOf(o.tokenGetter.value, store)
    ensures o.tokenGetter.None? && o.tokenName.Some? && o.tokenName.value != "" ==>
              TokenOf(Resolve(Some(o)).tokenGetter, store) == GetItem(store, o.tokenName.value)
    ensures o.tokenGetter.None? && (o.tokenName.None? || o.tokenName.value == "") ==>
              TokenOf(Resolve(Some(o)).tokenGetter, store) == GetItem(store, DefaultTokenName)
  {
  }

  /** When no getter is supplied, the token is read under the effective `tokenName`, unless that is empty. */
  lemma TokenReadUnderTokenName(o: Overrides, store: Store)
    requires o.tokenGetter.None?
    ensures var cfg := Resolve(Some(o));
      TokenOf(cfg.tokenGetter, store) == GetItem(store, if cfg.tokenName == "" then DefaultTokenName else cfg.tokenName)
  {
  }

  /** Reading the expiry date, by the same rules as the token, through `Number(...)`. */
  lemma ExpiryDateGetterReads(o: Overrides, store: Store)
    ensures o.expiryDateGetter.Some? ==>
              ExpiryDateOf(Resolve(Some(o)).expiryDateGetter, store) == ExpiryDateOf(o.expiryDateGetter.value, store)
    ensures o.expiryDateGetter.None? && o.expiryDateName.Some? && o.expiryDateName.value != "" ==>
              ExpiryDateOf(Resolve(Some(o)).expiryDateGetter, store)
                == NumberOf(GetItem(store, o.expiryDateName.value))
    ensures o.expiryDateGetter.None? && (o.expiryDateName.None? || o.expiryDateName.value == "") ==>
              ExpiryDateOf(Resolve(Some(o)).expiryDateGetter, store)
                == NumberOf(GetItem(store, DefaultExpiryName))
  {
  }

  /** The default configuration's getter finds a token stored under `"access_token"`. */
  lemma DefaultTokenGetterFindsStoredToken(store: Store, token: string)
    ensures TokenOf(Resolve(None).tokenGetter, SetItem(store, Resolve(None).tokenName, token)) == Some(token)
  {
  }

  /** A token name alone switches the getter to that key. */
  lemma CustomTokenNameGetter(store: Store, name: string, token: string)
    requires name != ""
    ensures var cfg := Resolve(Some(NoOverrides.(tokenName := Some(name))));
      && cfg.tokenName == name
      && TokenOf(cfg.tokenGetter, SetItem(store, name, token)) == Some(token)
  {
  }

  /** Every option given at once: the fields are taken, the prefix gains a space, the getter is kept. */
  lemma AllOptionsGiven(store: Store)
    ensures var hs := [HeaderEntry("header", "value"), HeaderEntry("header2", "value2")];
      var cfg := Resolve(Some(Overrides(
        Some("Foo"), Some("Bar"), Some("token"), None,
        Some(Custom(Some("this is a token"))), Some(Custom(Finite(1234))), Some(hs), Some(true))));
      && cfg.headerName == "Foo"
      && cfg.headerPrefix == "Bar "
      && cfg.tokenName == "token"
      && cfg.noTokenScheme
      && cfg.globalHeaders == hs
      && TokenOf(cfg.tokenGetter, store) == Some("this is a token")
  {
  }
}
