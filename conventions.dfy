/**
 * conventions/instance/index.ts: the checks the instance stack's unit tests
 * apply to the resources it declares. A rule or instance that breaks the
 * convention throws an Error; one that keeps it gets the mocked outputs.
 */
module InstanceConventions {
  import opened Wrappers
  import opened Errors
  import Text

  /** The inputs of an aws.ec2.SecurityGroupRule that the check reads. */
  datatype RuleInputs = RuleInputs(ruleType: string, fromPort: int, toPort: int)

  const AllowedPort := 80
  const AllowedInstanceType := "t4g.nano"

  const RulePrefix := "ingress security group rule only allowed port 80 but fromPort "
  const RuleMiddle := ", toPort "
  const InstancePrefix := "instanceType must be t4g.nano but "

  function RuleMessage(fromPort: int, toPort: int): string {
    RulePrefix + Text.IntToString(fromPort) + RuleMiddle + Text.IntToString(toPort)
  }

  /** Only ingress rules are constrained, and only to port 80 at both ends. */
  function UnitTestSecurityGroupRule(inputs: RuleInputs): (r: Result<map<string, string>, Thrown>)
    ensures r.Success? <==> inputs.ruleType != "ingress" || (inputs.fromPort == AllowedPort && inputs.toPort == AllowedPort)
    ensures r.Success? ==> r.value == map[]
    ensures r.Failure? ==> r.error == ErrorObject(RuleMessage(inputs.fromPort, inputs.toPort))
  {
    if inputs.ruleType == "ingress" && (inputs.fromPort != AllowedPort || inputs.toPort != AllowedPort) then
      Failure(ErrorObject(RuleMessage(inputs.fromPort, inputs.toPort)))
    else
      Success(map[])
  }

  /** The two ports a rule message reports, read back from its text. */
  function ReportedPorts(msg: string): Option<(int, int)> {
    if !Text.StartsWith(msg, RulePrefix) then None
    else
      var rest := msg[|RulePrefix|..];
      var i := Text.IndexOf(rest, ',');
      if !Text.StartsWith(rest[i..], RuleMiddle) then None
      else
        match (Text.ParseInt(rest[..i]), Text.ParseInt(rest[i + |RuleMiddle|..]))
        case (Some(a), Some(b)) => Some((a, b))
        case _ => None
  }

  /** A rejected rule's message names both of its ports. */
  lemma RuleMessageReportsPorts(fromPort: int, toPort: int)
    ensures ReportedPorts(RuleMessage(fromPort, toPort)) == Some((fromPort, toPort))
  {
    var a, b := Text.IntToString(fromPort), Text.IntToString(toPort);
    var msg := RuleMessage(fromPort, toPort);
    assert msg == RulePrefix + (a + RuleMiddle + b);
    var rest := msg[|RulePrefix|..];
    assert msg[..|RulePrefix|] == RulePrefix;
    assert rest == a + (RuleMiddle + b);
    Text.IndexOfAfter(a, RuleMiddle + b, ',');
    assert rest[|a|..] == RuleMiddle + b;
    assert rest[..|a|] == a;
    assert rest[|a| + |RuleMiddle|..] == b;
    Text.IntToStringRoundTrip(fromPort);
    Text.IntToStringRoundTrip(toPort);
  }

  /** Every instance must be a t4g.nano; a passing one gets an empty public IP. */
  function UnitTestEc2Instance(instanceType: string): (r: Result<map<string, string>, Thrown>)
    ensures r.Success? <==> instanceType == AllowedInstanceType
    ensures r.Success? ==> r.value == map["publicIp" := ""]
    ensures r.Failure? ==> r.error == ErrorObject(InstancePrefix + instanceType)
  {
    if instanceType != AllowedInstanceType then Failure(ErrorObject(InstancePrefix + instanceType))
    else Success(map["publicIp" := ""])
  }

  /** A rejected instance's message ends with the offending type, after a fixed prefix. */
  lemma InstanceMessageNamesType(instanceType: string)
    requires instanceType != AllowedInstanceType
    ensures var m := UnitTestEc2Instance(instanceType).error.message;
      Text.StartsWith(m, InstancePrefix) && m[|InstancePrefix|..] == instanceType
  {
    var m := InstancePrefix + instanceType;
    assert m[..|InstancePrefix|] == InstancePrefix;
  }
}
