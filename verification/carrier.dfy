/** Carrier configuration of `delivery_bobgo/models/delivery_bobgo.py`: the two
    field constraints, API-key normalisation, and the choice between the
    sandbox and the production service. */
module CarrierConfig {
  import opened Base
  import opened Records

  /** The shortest stripped API key the constraint accepts. */
  const MinKeyLength: nat := 20
  /** Keys whose stripped length is at most this are not given a prefix. */
  const PrefixThreshold: nat := 10
  const BearerPrefix: string := "Bearer "

  const SandboxApiUrl: string := "https://api.sandbox.bobgo.co.za/v2"
  const ProductionApiUrl: string := "https://api.bobgo.co.za/v2"
  const SandboxTrackingHost: string := "sandbox.bobgo.co.za"
  const ProductionTrackingHost: string := "bobgo.co.za"

  const KeyTooShort: string := "API Key seems too short. Please check your Bobgo API key."
  const NegativeHandlingTime: string := "Handling time cannot be negative."
  const KeyNotConfigured: string :=
    "Bobgo API Key is not configured. Please set it in the delivery method configuration."

  /** The `bobgo_api_key` constraint for one carrier. */
  function CheckApiKey(c: Carrier): (r: Outcome)
    ensures r.Fail? <==> c.deliveryType == BobgoType && Truthy(c.apiKey) && |Strip(c.apiKey.value)| < MinKeyLength
    ensures r.Fail? ==> r.error == ValidationError(KeyTooShort)
  {
    if c.deliveryType == BobgoType && Truthy(c.apiKey) && |Strip(c.apiKey.value)| < MinKeyLength then
      Fail(ValidationError(KeyTooShort))
    else
      Pass
  }

  /** The `bobgo_handling_time` constraint for one carrier. */
  function CheckHandlingTime(c: Carrier): (r: Outcome)
    ensures r.Fail? <==> c.deliveryType == BobgoType && c.handlingTime < 0
    ensures r.Fail? ==> r.error == ValidationError(NegativeHandlingTime)
  {
    if c.deliveryType == BobgoType && c.handlingTime < 0 then
      Fail(ValidationError(NegativeHandlingTime))
    else
      Pass
  }

  /** Both constraints run over a recordset of carriers, as on a create or on
      a write of both fields: a recordset passes iff every carrier passes both,
      and a short key anywhere is reported before any negative handling time. */
  function CheckCarriers(cs: seq<Carrier>): (r: Outcome)
    ensures r.Pass? <==> forall i :: 0 <= i < |cs| ==> CheckApiKey(cs[i]).Pass? && CheckHandlingTime(cs[i]).Pass?
    ensures (exists i :: 0 <= i < |cs| && CheckApiKey(cs[i]).Fail?) ==> r == Fail(ValidationError(KeyTooShort))
    ensures (forall i :: 0 <= i < |cs| ==> CheckApiKey(cs[i]).Pass?) && r.Fail? ==>
              r == Fail(ValidationError(NegativeHandlingTime))
  {
    CheckEachFirstFailure(cs, CheckApiKey);
    CheckEachFirstFailure(cs, CheckHandlingTime);
    var keys := CheckEach(cs, CheckApiKey);
    if keys.Fail? then keys else CheckEach(cs, CheckHandlingTime)
  }

  /** Carriers of another delivery type are never rejected, whatever their key
      and handling time; a Bobgo carrier is rejected when its stripped key is
      too short or its handling time is negative. */
  lemma CarrierConstraints(cs: seq<Carrier>)
    ensures (forall i :: 0 <= i < |cs| ==> cs[i].deliveryType != BobgoType) ==> CheckCarriers(cs).Pass?
    ensures (exists i :: 0 <= i < |cs| && cs[i].deliveryType == BobgoType && cs[i].handlingTime < 0)
              ==> CheckCarriers(cs).Fail?
    ensures (exists i :: 0 <= i < |cs| && cs[i].deliveryType == BobgoType && Truthy(cs[i].apiKey)
                         && |Strip(cs[i].apiKey.value)| < MinKeyLength)
              ==> CheckCarriers(cs) == Fail(ValidationError(KeyTooShort))
    ensures CheckCarriers(cs).Pass? <==>
              forall i :: 0 <= i < |cs| ==> CheckApiKey(cs[i]).Pass? && CheckHandlingTime(cs[i]).Pass?
  {
    CheckEachFirstFailure(cs, CheckApiKey);
    CheckEachFirstFailure(cs, CheckHandlingTime);
  }

  /** The key `bobgo_validate_configuration` stores: a key that does not start
      with the bearer prefix and whose stripped form is longer than ten
      characters becomes the prefix followed by the stripped key. */
  function NormalizeKey(key: string): (r: string)
    ensures !StartsWith(key, BearerPrefix) && |Strip(key)| > PrefixThreshold ==> r == BearerPrefix + Strip(key)
    ensures StartsWith(key, BearerPrefix) || |Strip(key)| <= PrefixThreshold ==> r == key
    ensures key != [] ==> r != []
  {
    if !StartsWith(key, BearerPrefix) && |Strip(key)| > PrefixThreshold then BearerPrefix + Strip(key) else key
  }

  /** Whether `bobgo_validate_configuration` writes a new key: the stored key
      lacks the bearer prefix and its stripped form is longer than ten
      characters. */
  predicate RewritesKey(key: string) {
    !StartsWith(key, BearerPrefix) && |Strip(key)| > PrefixThreshold
  }

  /** `bobgo_validate_configuration`: fails when no key is set, and otherwise
      returns the carrier with its key normalised and nothing else changed.
      Writing the normalised key runs the key constraint again, which rejects
      a Bobgo key whose prefixed form is still shorter than the minimum: a
      stripped key of eleven or twelve characters. */
  function ValidateConfiguration(c: Carrier): (r: Result<Carrier>)
    ensures r == Err(UserError(KeyNotConfigured)) <==> !Truthy(c.apiKey)
    ensures r == Err(ValidationError(KeyTooShort)) <==>
              Truthy(c.apiKey) && c.deliveryType == BobgoType && RewritesKey(c.apiKey.value)
              && |Strip(c.apiKey.value)| < MinKeyLength - |BearerPrefix|
    ensures r.Err? ==> r == Err(UserError(KeyNotConfigured)) || r == Err(ValidationError(KeyTooShort))
    ensures r.Ok? ==> r.value == c.(apiKey := Some(NormalizeKey(c.apiKey.value)))
    ensures r.Ok? ==> Truthy(r.value.apiKey)
    ensures r.Ok? && RewritesKey(c.apiKey.value) ==> CheckApiKey(r.value).Pass?
  {
    if !Truthy(c.apiKey) then Err(UserError(KeyNotConfigured))
    else if RewritesKey(c.apiKey.value) then
      var written := c.(apiKey := Some(BearerPrefix + Strip(c.apiKey.value)));
      WrittenKeyChecked(c);
      if CheckApiKey(written).Fail? then Err(CheckApiKey(written).error) else Ok(written)
    else Ok(c)
  }

  /** The key constraint, run on the key normalisation writes, rejects it iff
      the stripped key is shorter than the minimum less the prefix. */
  lemma WrittenKeyChecked(c: Carrier)
    requires Truthy(c.apiKey) && RewritesKey(c.apiKey.value)
    ensures var written := c.(apiKey := Some(BearerPrefix + Strip(c.apiKey.value)));
            CheckApiKey(written).Fail? <==>
              c.deliveryType == BobgoType && |Strip(c.apiKey.value)| < MinKeyLength - |BearerPrefix|
  {
    PrefixedKeyStripped(Strip(c.apiKey.value));
  }

  /** The key written by normalisation is its own stripped form, so its
      stripped length is the prefix length plus that of the stripped key. */
  lemma PrefixedKeyStripped(t: string)
    requires t != [] && !IsSpace(t[|t| - 1])
    ensures Strip(BearerPrefix + t) == BearerPrefix + t
  {
    var k := BearerPrefix + t;
    assert !IsSpace(k[0]);
    assert StripLeft(k) == k;
    assert k[|k| - 1] == t[|t| - 1];
  }

  /** The stored key "abcdefghijk" is long enough to be given the prefix, and
      the prefixed key, eighteen characters long, fails the constraint its
      write runs. */
  lemma ElevenCharacterKeyRejected(c: Carrier)
    requires c.deliveryType == BobgoType
    ensures ValidateConfiguration(c.(apiKey := Some("abcdefghijk"))) == Err(ValidationError(KeyTooShort))
  {
    LowerCaseKey("abcdefghijk");
  }

  /** A key two characters longer is prefixed and accepted. */
  lemma ThirteenCharacterKeyAccepted(c: Carrier)
    requires c.deliveryType == BobgoType
    ensures ValidateConfiguration(c.(apiKey := Some("abcdefghijklm"))) == Ok(c.(apiKey := Some(BearerPrefix + "abcdefghijklm")))
  {
    LowerCaseKey("abcdefghijklm");
    assert NormalizeKey("abcdefghijklm") == BearerPrefix + "abcdefghijklm";
  }

  /** A key of lower-case letters is its own stripped form and lacks the
      prefix. */
  lemma LowerCaseKey(key: string)
    requires forall i :: 0 <= i < |key| ==> 'a' <= key[i] <= 'z'
    ensures Strip(key) == key && (key != [] ==> !StartsWith(key, BearerPrefix))
  {
    if key != [] {
      assert key[0] != BearerPrefix[0];
    }
  }

  /** Normalising a normalised key changes nothing. */
  lemma NormalizeKeyIdempotent(key: string)
    ensures NormalizeKey(NormalizeKey(key)) == NormalizeKey(key)
  {
    var k := NormalizeKey(key);
    if k != key {
      assert k[..|BearerPrefix|] == BearerPrefix;
    }
  }

  /** Validating a validated carrier gives the same carrier back. */
  lemma ValidateConfigurationIdempotent(c: Carrier)
    requires ValidateConfiguration(c).Ok?
    ensures ValidateConfiguration(ValidateConfiguration(c).value) == ValidateConfiguration(c)
  {
    NormalizeKeyIdempotent(c.apiKey.value);
  }

  /** A Bobgo carrier that passes the key constraint ends up with a key that
      starts with the bearer prefix once validated. */
  lemma AcceptedKeyGetsBearerPrefix(c: Carrier)
    requires c.deliveryType == BobgoType && Truthy(c.apiKey) && CheckApiKey(c).Pass?
    ensures ValidateConfiguration(c).Ok?
    ensures StartsWith(ValidateConfiguration(c).value.apiKey.value, BearerPrefix)
  {
    var key := c.apiKey.value;
    var k := NormalizeKey(key);
    if !StartsWith(key, BearerPrefix) {
      assert k == BearerPrefix + Strip(key);
      assert k[..|BearerPrefix|] == BearerPrefix;
    }
  }

  /** The prefix test looks at the key before stripping: a prefixed key
      preceded by one space is given a second prefix. */
  lemma LeadingSpaceGetsSecondPrefix(s: string)
    requires StartsWith(s, BearerPrefix) && |s| > PrefixThreshold && !IsSpace(s[|s| - 1])
    ensures NormalizeKey([' '] + s) == BearerPrefix + s
  {
    var key := [' '] + s;
    assert !StartsWith(key, BearerPrefix) by {
      assert key[0] != BearerPrefix[0];
    }
    assert s[0] == 'B';
    StripSingleLeadingSpace(s);
  }

  /** Stripping one leading space from a string whose ends are not white space
      gives that string. */
  lemma StripSingleLeadingSpace(s: string)
    requires |s| > 0 && !IsSpace(s[0]) && !IsSpace(s[|s| - 1])
    ensures Strip([' '] + s) == s
  {
    assert ([' '] + s)[1..] == s;
  }

  /** The two deployments of the service. */
  datatype Environment = Sandbox | Production

  /** The deployment a carrier talks to: its `bobgo_test_mode` flag. */
  function EnvironmentOf(c: Carrier): Environment
  {
    if c.testMode then Sandbox else Production
  }

  /** `bobgo_get_api_base_url`. */
  function ApiBaseUrl(c: Carrier): (r: string)
    ensures c.testMode ==> r == SandboxApiUrl
    ensures !c.testMode ==> r == ProductionApiUrl
  {
    if c.testMode then SandboxApiUrl else ProductionApiUrl
  }

  /** The host part of a tracking link. */
  function TrackingHost(env: Environment): string
  {
    match env
    case Sandbox => SandboxTrackingHost
    case Production => ProductionTrackingHost
  }

  function TrackingLinkPrefix(env: Environment): string
  {
    "https://" + TrackingHost(env) + "/tracking/"
  }

  /** `bobgo_get_tracking_link`: `False` without a tracking reference, and
      otherwise the tracking page of the reference on the carrier's deployment. */
  function TrackingLink(c: Carrier, trackingRef: Char): (r: Option<string>)
    ensures r.Some? <==> Truthy(trackingRef)
    ensures r.Some? ==> r.value == TrackingLinkPrefix(EnvironmentOf(c)) + trackingRef.value
  {
    if Truthy(trackingRef) then
      Some("https://" + (if c.testMode then SandboxTrackingHost else ProductionTrackingHost)
           + "/tracking/" + trackingRef.value)
    else None
  }

  /** The deployment a URL of either kind points at, read back from its host. */
  function EnvironmentOfUrl(url: string): Option<Environment>
  {
    if StartsWith(url, "https://api.sandbox.") || StartsWith(url, "https://sandbox.") then Some(Sandbox)
    else if StartsWith(url, "https://api.bobgo.") || StartsWith(url, "https://bobgo.") then Some(Production)
    else None
  }

  /** The API base URL of a carrier names the deployment its flag selects. */
  lemma ApiUrlEnvironment(c: Carrier)
    ensures EnvironmentOfUrl(ApiBaseUrl(c)) == Some(EnvironmentOf(c))
  {
    var url := ApiBaseUrl(c);
    if c.testMode {
      assert url[..20] == "https://api.sandbox.";
    } else {
      assert url[12] != "https://api.sandbox."[12];
      assert url[8] != "https://sandbox."[8];
      assert url[..18] == "https://api.bobgo.";
    }
  }

  /** A tracking link names the deployment whose host it was built with. */
  lemma TrackingLinkEnvironment(env: Environment, ref: string)
    ensures EnvironmentOfUrl(TrackingLinkPrefix(env) + ref) == Some(env)
  {
    var link := TrackingLinkPrefix(env) + ref;
    match env
    case Sandbox =>
      assert link[..16] == "https://sandbox.";
    case Production =>
      assert link[8] != "https://api.sandbox."[8];
      assert link[8] != "https://sandbox."[8];
      assert link[..14] == "https://bobgo.";
  }

  /** The API base URL and the tracking link always point at the same
      deployment, the one the sandbox flag selects. */
  lemma SameEnvironmentForApiAndTracking(c: Carrier, trackingRef: Char)
    requires Truthy(trackingRef)
    ensures EnvironmentOfUrl(ApiBaseUrl(c)) == Some(EnvironmentOf(c))
    ensures EnvironmentOfUrl(TrackingLink(c, trackingRef).value) == Some(EnvironmentOf(c))
  {
    ApiUrlEnvironment(c);
    TrackingLinkEnvironment(EnvironmentOf(c), trackingRef.value);
  }

  /** The tracking reference can be read back from the link: distinct
      references give distinct links. */
  lemma TrackingLinkRecoversReference(c: Carrier, trackingRef: Char)
    requires Truthy(trackingRef)
    ensures var link := TrackingLink(c, trackingRef).value;
            link[|TrackingLinkPrefix(EnvironmentOf(c))|..] == trackingRef.value
  {
  }
}
