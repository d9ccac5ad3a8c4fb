/** The source-of-truth check on interfaces, which accumulates its findings. */
module InterfaceConsistency {
  import opened Json
  import opened InfrahubGraph

  datatype CheckedNode = CheckedNode(id: Option<string>, device: Option<string>, node: InterfaceNode)

  datatype Finding = UnexpectedName | FabricWithoutAddress | FabricWithoutDescription | LoopbackWithoutAddress

  datatype Error = Error(finding: Finding, subject: string, objectId: string)

  /** The check's own list of name formats. */
  predicate ExpectedName(name: string) {
    exists prefix | prefix in ["ethernet-", "system", "loopback", "mgmt"] :: prefix <= name
  }

  function Label(c: CheckedNode): string {
    Or(c.device, "unknown") + ":" + c.node.name
  }

  function ErrorIf(cond: bool, finding: Finding, c: CheckedNode): seq<Error> {
    if cond then [Error(finding, Label(c), Or(c.id, "unknown"))] else []
  }

  function ErrorsOf(c: CheckedNode): seq<Error> {
    var n := c.node;
    ErrorIf(n.name != "" && !ExpectedName(n.name), UnexpectedName, c)
    + ErrorIf(n.role == Some("fabric") && n.addresses == [], FabricWithoutAddress, c)
    + ErrorIf(n.role == Some("fabric") && Or(n.description, "") == "", FabricWithoutDescription, c)
    + ErrorIf(n.role == Some("loopback") && n.addresses == [], LoopbackWithoutAddress, c)
  }

  function AllErrors(cs: seq<CheckedNode>): seq<Error> {
    if cs == [] then [] else AllErrors(cs[..|cs| - 1]) + ErrorsOf(cs[|cs| - 1])
  }

  class InterfaceConsistencyCheck {
    var errors: seq<Error>

    constructor ()
      ensures errors == []
    {
      errors := [];
    }

    method LogError(finding: Finding, subject: string, objectId: string)
      modifies this
      ensures errors == old(errors) + [Error(finding, subject, objectId)]
    {
      errors := errors + [Error(finding, subject, objectId)];
    }

    method Validate(cs: seq<CheckedNode>)
      modifies this
      ensures errors == old(errors) + AllErrors(cs)
    {
      if cs == [] {
        return;
      }
      for i := 0 to |cs|
        invariant errors == old(errors) + AllErrors(cs[..i])
      {
        assert cs[..i + 1][..i] == cs[..i];
        ValidateOne(cs[i]);
      }
      assert cs[..|cs|] == cs;
    }

    method ValidateOne(c: CheckedNode)
      modifies this
      ensures errors == old(errors) + ErrorsOf(c)
    {
      var name, role, description := c.node.name, Or(c.node.role, ""), Or(c.node.description, "");
      var subject, id := Or(c.device, "unknown") + ":" + name, Or(c.id, "unknown");
      if name != "" && !ExpectedName(name) {
        LogError(UnexpectedName, subject, id);
      }
      if role == "fabric" {
        if c.node.addresses == [] {
          LogError(FabricWithoutAddress, subject, id);
        }
        if description == "" {
          LogError(FabricWithoutDescription, subject, id);
        }
      }
      if role == "loopback" {
        if c.node.addresses == [] {
          LogError(LoopbackWithoutAddress, subject, id);
        }
      }
    }
  }

  predicate Finds(errors: seq<Error>, finding: Finding) {
    exists i | 0 <= i < |errors| :: errors[i].finding == finding
  }

  lemma FindsConcat(a: seq<Error>, b: seq<Error>, finding: Finding)
    ensures Finds(a + b, finding) <==> Finds(a, finding) || Finds(b, finding)
  {
    if i :| 0 <= i < |a| && a[i].finding == finding {
      assert (a + b)[i].finding == finding;
    }
    if i :| 0 <= i < |b| && b[i].finding == finding {
      assert (a + b)[|a| + i].finding == finding;
    }
  }
}
