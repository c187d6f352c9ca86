/** Names of model apps: `{gateway}.{model}-{fingerprint}`, how one is built and how it is read back. */
module AppNames {
  import opened Wrappers

  const FINGERPRINT_LEN := 10

  predicate HexDigit(c: char) {
    '0' <= c <= '9' || 'a' <= c <= 'f'
  }

  predicate IsFingerprint(s: string) {
    |s| == FINGERPRINT_LEN && forall i :: 0 <= i < |s| ==> HexDigit(s[i])
  }

  type Fingerprint = s: string | IsFingerprint(s) witness "0000000000"

  /** A gateway name the driver accepts and the name pattern can read back. */
  predicate LegalGateway(gateway: string) {
    gateway != "" && '.' !in gateway
  }

  /** A model name the name pattern can read back: `.+` takes any character but a newline. */
  predicate Listable(model: string) {
    model != "" && '\n' !in model
  }

  function DeploymentName(gateway: string, model: string, fingerprint: Fingerprint): string {
    gateway + "." + model + "-" + fingerprint
  }

  /** The declarative reading of the pattern: *s* is some legal gateway's and listable model's name. */
  ghost predicate Matches(s: string, gateway: string, model: string) {
    LegalGateway(gateway) && Listable(model) &&
    exists fingerprint: Fingerprint :: s == DeploymentName(gateway, model, fingerprint)
  }

  function FirstDot(s: string): (i: nat)
    ensures i <= |s| && '.' !in s[..i]
    ensures i < |s| ==> s[i] == '.'
  {
    if s == "" || s[0] == '.' then 0 else
      var i := 1 + FirstDot(s[1..]);
      assert s[..i] == [s[0]] + s[1..][..i - 1];
      i
  }

  /** Whether *s* splits at *i* and *end* into a gateway, a listable model and a fingerprint. */
  predicate WellShaped(s: string, i: int, end: int) {
    0 < i && i + 1 < end && end + 1 + FINGERPRINT_LEN == |s| && s[i] == '.' && s[end] == '-' &&
    IsFingerprint(s[end + 1..]) && Listable(s[i + 1..end])
  }

  /** (gateway, model name) of an app named by `DeploymentName`, else None. */
  function ParseDeploymentName(s: string): (r: Option<(string, string)>)
    ensures forall gateway, model :: r == Some((gateway, model)) <==> Matches(s, gateway, model)
  {
    var i := FirstDot(s);
    var end := |s| - FINGERPRINT_LEN - 1;
    if WellShaped(s, i, end) then
      ParseAccepts(s, i, end);
      Some((s[..i], s[i + 1..end]))
    else
      ParseRejects(s);
      None
  }

  lemma MatchesShape(s: string, gateway: string, model: string, fingerprint: Fingerprint)
    requires LegalGateway(gateway) && Listable(model) && s == DeploymentName(gateway, model, fingerprint)
    ensures var i, end := FirstDot(s), |s| - FINGERPRINT_LEN - 1;
            WellShaped(s, i, end) && gateway == s[..i] && model == s[i + 1..end]
  {
    NameShape(gateway, model, fingerprint);
  }

  lemma ParseAccepts(s: string, i: nat, end: nat)
    requires i == FirstDot(s) && WellShaped(s, i, end)
    ensures forall gateway, model :: Some((s[..i], s[i + 1..end])) == Some((gateway, model)) <==> Matches(s, gateway, model)
  {
    assert s == DeploymentName(s[..i], s[i + 1..end], s[end + 1..]);
    assert Matches(s, s[..i], s[i + 1..end]);
    forall gateway, model | Matches(s, gateway, model)
      ensures gateway == s[..i] && model == s[i + 1..end]
    {
      var fingerprint: Fingerprint :| s == DeploymentName(gateway, model, fingerprint);
      MatchesShape(s, gateway, model, fingerprint);
    }
  }

  lemma ParseRejects(s: string)
    requires !WellShaped(s, FirstDot(s), |s| - FINGERPRINT_LEN - 1)
    ensures forall gateway, model :: !Matches(s, gateway, model)
  {
    forall gateway, model, fingerprint: Fingerprint | LegalGateway(gateway) && Listable(model)
      ensures s != DeploymentName(gateway, model, fingerprint)
    {
      if s == DeploymentName(gateway, model, fingerprint) {
        MatchesShape(s, gateway, model, fingerprint);
      }
    }
  }

  lemma FirstDotAfter(gateway: string, rest: string)
    requires '.' !in gateway && rest != "" && rest[0] == '.'
    ensures FirstDot(gateway + rest) == |gateway|
  {
    if gateway != "" {
      assert (gateway + rest)[1..] == gateway[1..] + rest;
      FirstDotAfter(gateway[1..], rest);
    }
  }

  /** Where the parts of a legal gateway's app name lie. */
  lemma NameShape(gateway: string, model: string, fingerprint: Fingerprint)
    requires '.' !in gateway
    ensures var s, i := DeploymentName(gateway, model, fingerprint), |gateway|;
            var end := |s| - FINGERPRINT_LEN - 1;
            FirstDot(s) == i && s[..i] == gateway && i < end && s[i] == '.' && s[end] == '-' &&
            s[i + 1..end] == model && s[end + 1..] == fingerprint
  {
    var rest := "." + model + "-" + fingerprint;
    assert DeploymentName(gateway, model, fingerprint) == gateway + rest;
    FirstDotAfter(gateway, rest);
  }

  /** An app name reads back as what it was built from exactly when its gateway is legal and its model listable. */
  lemma ParseRoundTrip(gateway: string, model: string, fingerprint: Fingerprint)
    ensures ParseDeploymentName(DeploymentName(gateway, model, fingerprint)) == Some((gateway, model))
       <==> LegalGateway(gateway) && Listable(model)
  {
  }

  /** The name tells gateway, model and fingerprint apart, whatever characters the model name holds. */
  lemma DeploymentNameInjective(gateway: string, model: string, fingerprint: Fingerprint,
                                gateway': string, model': string, fingerprint': Fingerprint)
    requires '.' !in gateway && '.' !in gateway'
    requires DeploymentName(gateway, model, fingerprint) == DeploymentName(gateway', model', fingerprint')
    ensures gateway == gateway' && model == model' && fingerprint == fingerprint'
  {
    NameShape(gateway, model, fingerprint);
    NameShape(gateway', model', fingerprint');
  }

  /** A model app, by the parts of its name; two apps of legal gateways have one name only if they are one app. */
  datatype App = App(gateway: string, model: string, fingerprint: Fingerprint)
  {
    /** Whether *gateway*'s model apps include it; `ListedByName` shows this is what its name decides. */
    predicate Listed(gw: string) { gateway == gw && Listable(model) }
  }

  /** For a legal gateway, the apps whose name parses to it are its own with a listable model name. */
  lemma ListedByName(app: App, gateway: string)
    requires LegalGateway(gateway) && '.' !in app.gateway
    ensures app.Listed(gateway) <==>
              ParseDeploymentName(DeploymentName(app.gateway, app.model, app.fingerprint)) == Some((gateway, app.model))
  {
    var name := DeploymentName(app.gateway, app.model, app.fingerprint);
    ParseRoundTrip(app.gateway, app.model, app.fingerprint);
    var parsed := ParseDeploymentName(name);
    if parsed.Some? {
      assert Matches(name, parsed.value.0, parsed.value.1);
      var fingerprint: Fingerprint :| name == DeploymentName(parsed.value.0, parsed.value.1, fingerprint);
      DeploymentNameInjective(app.gateway, app.model, app.fingerprint, parsed.value.0, parsed.value.1, fingerprint);
    }
  }
}
