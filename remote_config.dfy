/**
 * Validation of a remote descriptor, the map a step passes as `remote`, as the
 * SSH service performs it before opening any session.
 *
 * Only the outcomes the service's tests pin down are modelled: the order of
 * the checks, the kind of error (a Groovy assertion failure for a structural
 * defect, an IllegalArgumentException for the host-key policy) and the exact
 * messages. A field counts as given when it is present and Groovy-true: a
 * non-empty string, or the boolean `true`.
 */
module RemoteConfig {
  import opened Wrappers

  /** A descriptor value: a string or a boolean. */
  datatype Value = Text(text: string) | Flag(flag: bool)

  type Descriptor = map<string, Value>

  datatype ValidationError =
    | AssertionFailure(message: string)   // java.lang.AssertionError
    | IllegalArgument(message: string)    // java.lang.IllegalArgumentException

  /** The validated remote. */
  datatype Remote = Remote(name: string, user: string, knownHosts: Option<string>, allowAnyHosts: bool)

  const EmptyRemoteMessage: string :=
    "SSH Steps: remote is null or empty. Expression: remote. Values: remote = [:]"

  const MissingNameMessage: string :=
    "SSH Steps:  a remote (or a gateway) is missing the required field 'name'. Expression: remote.name"

  function MissingUserMessage(name: string): string
  {
    "SSH Steps: user must be given (" + name + "). Expression: remote.user"
  }

  function MissingKnownHostsMessage(name: string): string
  {
    "SSH Steps: knownHosts must be provided when allowAnyHosts is false: " + name
  }

  predicate Truthy(v: Value)
  {
    match v
    case Text(s) => |s| > 0
    case Flag(b) => b
  }

  predicate Given(d: Descriptor, key: string)
  {
    key in d && Truthy(d[key])
  }

  /** A value as it is interpolated into a message. */
  function Show(v: Value): string
  {
    match v
    case Text(s) => s
    case Flag(b) => if b then "true" else "false"
  }

  /** The checks, in order: a non-empty map, `name`, `user`, then a host-key policy. */
  function Validate(d: Descriptor): (r: Result<Remote, ValidationError>)
    ensures d == map[] ==> r == Failure(AssertionFailure(EmptyRemoteMessage))
    ensures d != map[] && !Given(d, "name") ==> r == Failure(AssertionFailure(MissingNameMessage))
    ensures Given(d, "name") && !Given(d, "user") ==>
              r == Failure(AssertionFailure(MissingUserMessage(Show(d["name"]))))
    ensures Given(d, "name") && Given(d, "user") && !Given(d, "knownHosts") && !Given(d, "allowAnyHosts") ==>
              r == Failure(IllegalArgument(MissingKnownHostsMessage(Show(d["name"]))))
    ensures r.Success? <==>
              Given(d, "name") && Given(d, "user") && (Given(d, "knownHosts") || Given(d, "allowAnyHosts"))
    ensures r.Failure? ==> (r.error.IllegalArgument? <==> Given(d, "name") && Given(d, "user"))
    ensures r.Success? ==>
              && r.value.name == Show(d["name"])
              && r.value.user == Show(d["user"])
              && r.value.allowAnyHosts == Given(d, "allowAnyHosts")
              && r.value.knownHosts == (if Given(d, "knownHosts") then Some(Show(d["knownHosts"])) else None)
  {
    if d == map[] then
      Failure(AssertionFailure(EmptyRemoteMessage))
    else if !Given(d, "name") then
      Failure(AssertionFailure(MissingNameMessage))
    else
      var name := Show(d["name"]);
      if !Given(d, "user") then
        Failure(AssertionFailure(MissingUserMessage(name)))
      else if !Given(d, "allowAnyHosts") && !Given(d, "knownHosts") then
        Failure(IllegalArgument(MissingKnownHostsMessage(name)))
      else
        Success(Remote(name, Show(d["user"]),
                       if Given(d, "knownHosts") then Some(Show(d["knownHosts"])) else None,
                       Given(d, "allowAnyHosts")))
  }

  /**
   * `user` is checked before the host-key policy: with a name and no user the
   * outcome is the same whatever `knownHosts` and `allowAnyHosts` say.
   */
  lemma UserCheckedBeforeHostPolicy(d: Descriptor, policy: map<string, Value>)
    requires Given(d, "name") && !Given(d, "user")
    requires policy.Keys <= {"knownHosts", "allowAnyHosts"}
    ensures Validate(d + policy) == Validate(d)
  {
  }

  /** The service's test with an empty map. */
  lemma EmptyRemoteTestCase()
    ensures Validate(map[]) == Failure(AssertionFailure(EmptyRemoteMessage))
  {
  }

  /** The service's test with an empty name. */
  lemma EmptyNameTestCase()
    ensures Validate(map["name" := Text("")]) == Failure(AssertionFailure(MissingNameMessage))
  {
    var d := map["name" := Text("")];
    assert d != map[] by { assert "name" in d; }
  }

  lemma MissingUserMessageText()
    ensures MissingUserMessage("dummy") == "SSH Steps: user must be given (dummy). Expression: remote.user"
  {
    var head := "SSH Steps: user must be given (" + "dummy";
    assert head == "SSH Steps: user must be given (dummy";
  }

  /** The service's test with a name and no user (and no knownHosts). */
  lemma MissingUserTestCase()
    ensures Validate(map["name" := Text("dummy")])
            == Failure(AssertionFailure("SSH Steps: user must be given (dummy). Expression: remote.user"))
  {
    var d := map["name" := Text("dummy")];
    assert d != map[] by { assert "name" in d; }
    assert Given(d, "name") && !Given(d, "user") && Show(d["name"]) == "dummy";
    MissingUserMessageText();
  }

  /** The service's test with a name and a user but no host-key policy. */
  lemma MissingKnownHostsTestCase()
    ensures Validate(map["name" := Text("dummy"), "user" := Text("dummy")])
            == Failure(IllegalArgument("SSH Steps: knownHosts must be provided when allowAnyHosts is false: dummy"))
  {
    var d := map["name" := Text("dummy"), "user" := Text("dummy")];
    assert d != map[] by { assert "name" in d; }
    assert Given(d, "name") && Given(d, "user") && !Given(d, "knownHosts") && !Given(d, "allowAnyHosts");
    assert MissingKnownHostsMessage("dummy")
        == "SSH Steps: knownHosts must be provided when allowAnyHosts is false: dummy";
  }

  /** The service's test with the minimum required fields. */
  lemma MinimumRemoteTestCase()
    ensures Validate(map["name" := Text("dummy"), "user" := Text("dummy"), "allowAnyHosts" := Flag(true)])
            == Success(Remote("dummy", "dummy", None, true))
  {
    var d := map["name" := Text("dummy"), "user" := Text("dummy"), "allowAnyHosts" := Flag(true)];
    assert d != map[] by { assert "name" in d; }
  }
}
