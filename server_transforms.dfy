/** src/utils/server-transforms.ts: decoding a server's untyped `metadata`
    column into a fully populated metadata record, with a default for every
    field that is missing or `null`. */
module ServerTransforms {
  import opened Common
  import opened Json

  /** The leaves are `Json` because the decoder checks no types: whatever
      non-null value the input holds is kept. */
  datatype WelcomeScreen = WelcomeScreen(enabled: Json, description: Json, welcomeChannels: Json)
  datatype Features = Features(community: Json, welcomeScreen: WelcomeScreen)
  datatype ServerMetadata = ServerMetadata(boostStatus: Json, verificationLevel: Json, features: Features)

  // Where each leaf lives in the input.
  const FeaturesPath: seq<string> := ["features"]
  const WelcomeScreenPath: seq<string> := ["features", "welcome_screen"]
  const BoostStatusPath: seq<string> := ["boost_status"]
  const VerificationLevelPath: seq<string> := ["verification_level"]
  const CommunityPath: seq<string> := ["features", "community"]
  const EnabledPath: seq<string> := ["features", "welcome_screen", "enabled"]
  const DescriptionPath: seq<string> := ["features", "welcome_screen", "description"]
  const WelcomeChannelsPath: seq<string> := ["features", "welcome_screen", "welcome_channels"]

  /** The record every leaf falls back to. */
  const Defaults: ServerMetadata :=
    ServerMetadata(JNull, JNumber(0.0), Features(JBool(false), WelcomeScreen(JBool(false), JNull, JArray([]))))

  /** A record in which no leaf whose default is non-null holds `null`. */
  predicate Complete(m: ServerMetadata) {
    && m.verificationLevel != JNull
    && m.features.community != JNull
    && m.features.welcomeScreen.enabled != JNull
    && m.features.welcomeScreen.welcomeChannels != JNull
  }

  /** `transformServerMetadata`: total, and it never leaves `null` where the
      default is not `null`. */
  function TransformServerMetadata(metadata: Json): (r: ServerMetadata)
    ensures Complete(r)
  {
    var meta := Some(metadata);
    var features := Member(meta, "features");
    var welcome := Member(features, "welcome_screen");
    ServerMetadata(
      Coalesce(Member(meta, "boost_status"), JNull),
      Coalesce(Member(meta, "verification_level"), JNumber(0.0)),
      Features(
        Coalesce(Member(features, "community"), JBool(false)),
        WelcomeScreen(
          Coalesce(Member(welcome, "enabled"), JBool(false)),
          Coalesce(Member(welcome, "description"), JNull),
          Coalesce(Member(welcome, "welcome_channels"), JArray([])))))
  }

  /** The rule for one leaf: the input's value at `path` when it is present
      and not `null` (of whatever kind, `false`, `0` and `""` included),
      otherwise the fallback. */
  predicate FollowsRule(input: Json, path: seq<string>, fallback: Json, output: Json) {
    && (Given(input, path) ==> output == At(input, path).value)
    && (!Given(input, path) ==> output == fallback)
  }

  /** All six leaves of a decoded record obey their rules. */
  predicate ObeysRules(input: Json, r: ServerMetadata) {
    && FollowsRule(input, BoostStatusPath, Defaults.boostStatus, r.boostStatus)
    && FollowsRule(input, VerificationLevelPath, Defaults.verificationLevel, r.verificationLevel)
    && FollowsRule(input, CommunityPath, Defaults.features.community, r.features.community)
    && FollowsRule(input, EnabledPath, Defaults.features.welcomeScreen.enabled, r.features.welcomeScreen.enabled)
    && FollowsRule(input, DescriptionPath, Defaults.features.welcomeScreen.description, r.features.welcomeScreen.description)
    && FollowsRule(input, WelcomeChannelsPath, Defaults.features.welcomeScreen.welcomeChannels, r.features.welcomeScreen.welcomeChannels)
  }

  lemma PathPrefixes()
    ensures CommunityPath[..1] == FeaturesPath && EnabledPath[..2] == WelcomeScreenPath
    ensures DescriptionPath[..2] == WelcomeScreenPath && WelcomeChannelsPath[..2] == WelcomeScreenPath
    ensures WelcomeScreenPath[..1] == FeaturesPath && FeaturesPath[..0] == []
    ensures BoostStatusPath[..0] == [] && VerificationLevelPath[..0] == []
  {
  }

  /** The per-leaf rules of the decoder, stated against a path lookup. */
  lemma FieldRules(metadata: Json)
    ensures ObeysRules(metadata, TransformServerMetadata(metadata))
  {
    PathPrefixes();
    var meta := Some(metadata);
    assert At(metadata, FeaturesPath) == Member(meta, "features");
    assert At(metadata, WelcomeScreenPath) == Member(Member(meta, "features"), "welcome_screen");
  }

  /** A non-object input (`null`, a scalar, an array) decodes to the defaults. */
  lemma NonObjectGivesDefaults(metadata: Json)
    requires !metadata.JObject?
    ensures TransformServerMetadata(metadata) == Defaults
  {
  }

  /** When `features` is absent, `null` or not an object, every leaf beneath
      it takes its default. */
  lemma FeaturesNotObjectGivesDefaults(metadata: Json)
    requires At(metadata, FeaturesPath).None? || !At(metadata, FeaturesPath).value.JObject?
    ensures TransformServerMetadata(metadata).features == Defaults.features
  {
    FieldRules(metadata);
    PathPrefixes();
  }

  /** When `welcome_screen` is absent, `null` or not an object, its three
      leaves take their defaults. */
  lemma WelcomeScreenNotObjectGivesDefaults(metadata: Json)
    requires At(metadata, WelcomeScreenPath).None? || !At(metadata, WelcomeScreenPath).value.JObject?
    ensures TransformServerMetadata(metadata).features.welcomeScreen == Defaults.features.welcomeScreen
  {
    FieldRules(metadata);
    PathPrefixes();
  }

  /** Two inputs agree at the six leaf paths. */
  predicate SameLeaves(a: Json, b: Json) {
    && At(a, BoostStatusPath) == At(b, BoostStatusPath)
    && At(a, VerificationLevelPath) == At(b, VerificationLevelPath)
    && At(a, CommunityPath) == At(b, CommunityPath)
    && At(a, EnabledPath) == At(b, EnabledPath)
    && At(a, DescriptionPath) == At(b, DescriptionPath)
    && At(a, WelcomeChannelsPath) == At(b, WelcomeChannelsPath)
  }

  /** Every other key of the input is dropped: the decoded record depends on
      the six leaves alone. */
  lemma OnlyLeavesMatter(a: Json, b: Json)
    requires SameLeaves(a, b)
    ensures TransformServerMetadata(a) == TransformServerMetadata(b)
  {
    FieldRules(a);
    FieldRules(b);
  }

  /** A decoded record viewed as `Json` again, with every leaf present. */
  function ToJson(m: ServerMetadata): Json {
    JObject(map[
      "boost_status" := m.boostStatus,
      "verification_level" := m.verificationLevel,
      "features" := JObject(map[
        "community" := m.features.community,
        "welcome_screen" := JObject(map[
          "enabled" := m.features.welcomeScreen.enabled,
          "description" := m.features.welcomeScreen.description,
          "welcome_channels" := m.features.welcomeScreen.welcomeChannels])])])
  }

  /** The `Json` view of a record holds each leaf at its path. */
  lemma ToJsonLeaves(m: ServerMetadata)
    ensures At(ToJson(m), BoostStatusPath) == Some(m.boostStatus)
    ensures At(ToJson(m), VerificationLevelPath) == Some(m.verificationLevel)
    ensures At(ToJson(m), CommunityPath) == Some(m.features.community)
    ensures At(ToJson(m), EnabledPath) == Some(m.features.welcomeScreen.enabled)
    ensures At(ToJson(m), DescriptionPath) == Some(m.features.welcomeScreen.description)
    ensures At(ToJson(m), WelcomeChannelsPath) == Some(m.features.welcomeScreen.welcomeChannels)
  {
    PathPrefixes();
    assert At(ToJson(m), FeaturesPath).Some?;
    assert At(ToJson(m), WelcomeScreenPath).Some?;
  }

  /** A record survives a trip through `Json` and back exactly when it is
      complete: a `null` where the default is non-null would be replaced. */
  lemma RoundTripIffComplete(m: ServerMetadata)
    ensures TransformServerMetadata(ToJson(m)) == m <==> Complete(m)
  {
    ToJsonLeaves(m);
    FieldRules(ToJson(m));
  }

  /** Decoding is idempotent: decoding the output again changes nothing. */
  lemma Idempotent(metadata: Json)
    ensures TransformServerMetadata(ToJson(TransformServerMetadata(metadata))) == TransformServerMetadata(metadata)
  {
    RoundTripIffComplete(TransformServerMetadata(metadata));
  }

  /** `??` replaces only `null` (and a missing key): a leaf holding any other
      value, falsy or of the wrong kind, is kept as it is, for each of the
      six leaves. */
  lemma FallsBackOnlyOnNull(v: Json)
    ensures TransformServerMetadata(JObject(map["boost_status" := v])).boostStatus == v
    ensures TransformServerMetadata(JObject(map["verification_level" := v])).verificationLevel
      == if v == JNull then JNumber(0.0) else v
    ensures TransformServerMetadata(JObject(map["features" := JObject(map["community" := v])])).features.community
      == if v == JNull then JBool(false) else v
    ensures var ws := TransformServerMetadata(JObject(map["features" := JObject(map["welcome_screen" :=
        JObject(map["enabled" := v, "description" := v, "welcome_channels" := v])])])).features.welcomeScreen;
      && ws.enabled == (if v == JNull then JBool(false) else v)
      && ws.description == v
      && ws.welcomeChannels == (if v == JNull then JArray([]) else v)
  {
  }

  /** An example: falsy and mistyped values are kept as they are: `??` replaces only
      `null` and `undefined`, and nothing checks a leaf's kind. */
  lemma KeepsFalsyAndMistyped()
    ensures var r := TransformServerMetadata(JObject(map[
        "boost_status" := JBool(false),
        "verification_level" := JString("high"),
        "features" := JObject(map["community" := JBool(false), "welcome_screen" := JString("")])]));
      && r.boostStatus == JBool(false)
      && r.verificationLevel == JString("high")
      && r.features.community == JBool(false)
      && r.features.welcomeScreen == Defaults.features.welcomeScreen
  {
  }
}
